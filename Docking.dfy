/**
 * The docking stage (`docking` command) for one sampled batch: expand the
 * batch into one file per ligand and a manifest listing them, let Uni-Dock
 * dock the whole manifest, keep the best pose of each ligand, and write the
 * kept poses to one consolidated file.
 *
 * MolIO's parser and writer and Uni-Dock itself are outside the model:
 * the parsed ligands are an input (each says whether MolIO managed to
 * write it), and the files Uni-Dock writes are an input map.
 */
module Docking {
  import opened Paths
  import opened Files

  /** A ligand as MolIO parses it from the batch; `writable` is whether `ligand.sdf(output=...)` returns a path. */
  datatype Ligand = Ligand(title: string, writable: bool)

  /** In debug mode the manifest stops growing at this many ligands. */
  const DebugCap: nat := 100

  /** `<batch dir>/<title>.sdf` */
  function LigandPath(dir: string, l: Ligand): (p: Path)
    ensures p.dir == dir && EndsWith(p.name, ".sdf")
  {
    Join(dir, l.title + ".sdf")
  }

  /** Two ligands share a file exactly when they share a title. */
  lemma LigandPathInjective(dir: string, a: Ligand, b: Ligand)
    ensures LigandPath(dir, a) == LigandPath(dir, b) <==> a.title == b.title
  {
    if LigandPath(dir, a) == LigandPath(dir, b) {
      assert (a.title + ".sdf")[..|a.title|] == a.title;
      assert (b.title + ".sdf")[..|b.title|] == b.title;
    }
  }

  function LigandPaths(dir: string, ls: seq<Ligand>): (ps: seq<Path>)
    ensures |ps| == |ls|
    ensures forall i :: 0 <= i < |ls| ==> ps[i] == LigandPath(dir, ls[i])
  {
    seq(|ls|, i requires 0 <= i < |ls| => LigandPath(dir, ls[i]))
  }

  /** The manifest's lines: one path per line. */
  function Lines(ps: seq<Path>): (lines: seq<string>)
    ensures |lines| == |ps|
    ensures forall i :: 0 <= i < |ps| ==> lines[i] == Show(ps[i])
  {
    seq(|ps|, i requires 0 <= i < |ps| => Show(ps[i]))
  }

  /** The manifest sits beside the batch: the batch name with its last suffix replaced by `.txt`. */
  function ManifestPath(batch: Path): (p: Path)
    requires batch.name != ""
    ensures p.dir == batch.dir && EndsWith(p.name, ".txt")
    ensures Suffix(p.name) == ".txt" && Stem(p.name) == Stem(batch.name)
  {
    WithSuffixRoundTrip(batch.name, ".txt");
    Join(batch.dir, WithSuffix(batch.name, ".txt"))
  }

  /** Uni-Dock's output for one ligand file: `<stem>_out.sdf` beside it. */
  function OutPath(sdf: Path): (p: Path)
    ensures p.dir == sdf.dir && EndsWith(p.name, "_out.sdf")
    ensures Stem(sdf.name) <= p.name && |p.name| == |Stem(sdf.name)| + |"_out.sdf"|
  {
    Join(sdf.dir, Stem(sdf.name) + "_out.sdf")
  }

  /** The consolidated result of the batch: its name with the last suffix replaced by `.docking.sdf`. */
  function ConsolidatedPath(batch: Path): (p: Path)
    requires batch.name != ""
    ensures p.dir == batch.dir && EndsWith(p.name, ".docking.sdf")
    ensures Stem(batch.name) <= p.name && |p.name| == |Stem(batch.name)| + |".docking.sdf"|
  {
    Join(batch.dir, WithSuffix(batch.name, ".docking.sdf"))
  }

  // ----- the manifest -----

  /** The ligands MolIO wrote, in parse order. */
  function Accepted(ligs: seq<Ligand>): (acc: seq<Ligand>)
    ensures |acc| <= |ligs|
  {
    if ligs == [] then []
    else Accepted(ligs[..|ligs| - 1]) + (if ligs[|ligs| - 1].writable then [ligs[|ligs| - 1]] else [])
  }

  /** Exactly the ligands MolIO could write are accepted. */
  lemma {:induction false} AcceptedMembers(ligs: seq<Ligand>)
    ensures forall l :: l in Accepted(ligs) <==> l in ligs && l.writable
  {
    if ligs != [] {
      var init := ligs[..|ligs| - 1];
      AcceptedMembers(init);
      assert ligs == init + [ligs[|ligs| - 1]];
    }
  }

  lemma {:induction false} AcceptedAppend(a: seq<Ligand>, b: seq<Ligand>)
    ensures Accepted(a + b) == Accepted(a) + Accepted(b)
    decreases |b|
  {
    if b == [] {
      assert a + b == a;
    } else {
      var b' := b[..|b| - 1];
      assert (a + b)[..|a + b| - 1] == a + b';
      AcceptedAppend(a, b');
    }
  }

  /** The ligands the manifest lists: the written ones, only the first 100 of them in debug mode. */
  function Manifest(ligs: seq<Ligand>, debug: bool): (m: seq<Ligand>)
    ensures |m| <= |ligs|
    ensures debug ==> |m| <= DebugCap
  {
    if debug && |Accepted(ligs)| > DebugCap then Accepted(ligs)[..DebugCap] else Accepted(ligs)
  }

  /**
   * What the manifest holds: written ligands only, in parse order (a prefix
   * of all written ones), all of them without debug, at most 100 with it,
   * and exactly 100 when more than that were written.
   */
  lemma ManifestBounds(ligs: seq<Ligand>, debug: bool)
    ensures var m := Manifest(ligs, debug);
      m <= Accepted(ligs) &&
      (forall l :: l in m ==> l in ligs && l.writable) &&
      (!debug ==> m == Accepted(ligs)) &&
      (debug ==> |m| == if |Accepted(ligs)| > DebugCap then DebugCap else |Accepted(ligs)|)
  {
    AcceptedMembers(ligs);
  }

  /** Once the 100th written ligand is reached, the rest of the batch does not change the debug manifest. */
  lemma {:induction false} CapReached(ligs: seq<Ligand>, i: nat)
    requires i <= |ligs| && |Accepted(ligs[..i])| == DebugCap
    ensures Manifest(ligs, true) == Accepted(ligs[..i])
  {
    assert ligs == ligs[..i] + ligs[i..];
    AcceptedAppend(ligs[..i], ligs[i..]);
  }

  /** The filesystem after the given ligands were written one after the other. */
  function Saved(files: map<Path, Content>, dir: string, ls: seq<Ligand>): (after: map<Path, Content>)
    ensures files.Keys <= after.Keys
  {
    if ls == [] then files
    else Saved(files, dir, ls[..|ls| - 1])[LigandPath(dir, ls[|ls| - 1]) := Molecule(ls[|ls| - 1].title)]
  }

  lemma AcceptedStep(ligs: seq<Ligand>, i: nat)
    requires i < |ligs|
    ensures Accepted(ligs[..i + 1]) == Accepted(ligs[..i]) + (if ligs[i].writable then [ligs[i]] else [])
  {
    assert ligs[..i + 1][..i] == ligs[..i];
  }

  lemma SavedStep(files: map<Path, Content>, dir: string, ls: seq<Ligand>, l: Ligand)
    ensures Saved(files, dir, ls + [l]) == Saved(files, dir, ls)[LigandPath(dir, l) := Molecule(l.title)]
  {
    assert (ls + [l])[..|ls|] == ls;
  }

  /** A ligand that was written has its file afterwards, and no other path gained or lost a file. */
  lemma {:induction false} SavedFiles(files: map<Path, Content>, dir: string, ls: seq<Ligand>)
    ensures forall l :: l in ls ==>
      (LigandPath(dir, l) in Saved(files, dir, ls) && Saved(files, dir, ls)[LigandPath(dir, l)] == Molecule(l.title))
    ensures forall p :: p !in LigandPaths(dir, ls) ==>
      (p in Saved(files, dir, ls) <==> p in files) &&
      (p in files ==> Saved(files, dir, ls)[p] == files[p])
  {
    if ls != [] {
      var init, last := ls[..|ls| - 1], ls[|ls| - 1];
      SavedFiles(files, dir, init);
      assert LigandPaths(dir, ls) == LigandPaths(dir, init) + [LigandPath(dir, last)];
      forall l | l in ls
        ensures Saved(files, dir, ls)[LigandPath(dir, l)] == Molecule(l.title)
      {
        if LigandPath(dir, l) == LigandPath(dir, last) {
          LigandPathInjective(dir, l, last);
        } else {
          assert l in init;
        }
      }
    }
  }

  /**
   * The loop of `ligand_list`: writes each ligand MolIO can write to its
   * own file and stops after the 100th in debug mode, so later ligands are
   * never written.
   */
  method WriteLigands(fs: FileSystem, dir: string, ligs: seq<Ligand>, debug: bool) returns (kept: seq<Ligand>)
    modifies fs
    ensures kept == Manifest(ligs, debug)
    ensures fs.files == Saved(old(fs.files), dir, kept)
  {
    ghost var start := fs.files;
    kept := [];
    var i := 0;
    while i < |ligs|
      invariant 0 <= i <= |ligs|
      invariant kept == Accepted(ligs[..i])
      invariant debug ==> |kept| < DebugCap
      invariant fs.files == Saved(start, dir, kept)
    {
      var l := ligs[i];
      AcceptedStep(ligs, i);
      if l.writable {
        SavedStep(start, dir, kept, l);
        fs.Write(LigandPath(dir, l), Molecule(l.title));
        kept := kept + [l];
        if debug && |kept| == DebugCap {
          CapReached(ligs, i + 1);
          return;
        }
      }
      i := i + 1;
    }
    assert ligs[..i] == ligs;
    assert !debug || |Accepted(ligs)| <= DebugCap;
  }

  /** `ligand_list`: the ligand files, then the manifest of their paths, one per line. */
  method LigandList(fs: FileSystem, batch: Path, ligs: seq<Ligand>, debug: bool)
      returns (manifest: Path, entries: seq<Path>)
    requires batch.name != ""
    modifies fs
    ensures manifest == ManifestPath(batch)
    ensures entries == LigandPaths(batch.dir, Manifest(ligs, debug))
    ensures fs.files == Saved(old(fs.files), batch.dir, Manifest(ligs, debug))[manifest := Text(Lines(entries))]
  {
    manifest := ManifestPath(batch);
    var kept := WriteLigands(fs, batch.dir, ligs, debug);
    entries := LigandPaths(batch.dir, kept);
    fs.Write(manifest, Text(Lines(entries)));
  }

  // ----- the best pose -----

  /** The poses kept for selection: a usable molecule and a strictly negative score, in file order. */
  function Qualifying(poses: seq<Pose>): (q: seq<Pose>)
    ensures |q| <= |poses|
  {
    if poses == [] then []
    else (if poses[0].mol && poses[0].score < 0.0 then [poses[0]] else []) + Qualifying(poses[1..])
  }

  /** Exactly the poses with a molecule and a negative score qualify. */
  lemma {:induction false} QualifyingMembers(poses: seq<Pose>)
    ensures forall p :: p in Qualifying(poses) <==> p in poses && p.mol && p.score < 0.0
  {
    if poses != [] {
      QualifyingMembers(poses[1..]);
      assert poses == [poses[0]] + poses[1..];
    }
  }

  lemma {:induction false} QualifyingAppend(a: seq<Pose>, b: seq<Pose>)
    ensures Qualifying(a + b) == Qualifying(a) + Qualifying(b)
  {
    if a != [] {
      assert (a + b)[1..] == a[1..] + b;
      QualifyingAppend(a[1..], b);
    } else {
      assert a + b == b;
    }
  }

  /** The position `sorted(ps, key=score)[0]` picks: the first pose of least score (the sort is stable). */
  function FirstMinIndex(ps: seq<Pose>): (k: nat)
    requires ps != []
    ensures k < |ps|
    ensures forall j :: 0 <= j < |ps| ==> ps[k].score <= ps[j].score
    ensures forall j :: 0 <= j < k ==> ps[j].score > ps[k].score
  {
    if |ps| == 1 then 0
    else
      var k := FirstMinIndex(ps[1..]);
      if ps[0].score <= ps[k + 1].score then 0 else k + 1
  }

  /** Least score and no earlier pose of that score pin the position down. */
  lemma FirstMinIndexUnique(ps: seq<Pose>, k: nat)
    requires k < |ps|
    requires forall j :: 0 <= j < |ps| ==> ps[k].score <= ps[j].score
    requires forall j :: 0 <= j < k ==> ps[j].score > ps[k].score
    ensures k == FirstMinIndex(ps)
  {
  }

  /** The pose `best_pose` returns for the poses of an existing `_out.sdf`, or None. */
  function BestOf(poses: seq<Pose>): (best: Option<Pose>)
    ensures best.None? <==> Qualifying(poses) == []
    ensures best.Some? ==> best.value in Qualifying(poses)
  {
    var q := Qualifying(poses);
    if q == [] then None else Some(q[FirstMinIndex(q)])
  }

  /** Whether the pose at position i is the earliest qualifying pose of its score. */
  ghost predicate FirstOfItsScore(poses: seq<Pose>, i: nat)
    requires i < |poses|
  {
    forall j :: 0 <= j < i && poses[j].mol && poses[j].score < 0.0 ==> poses[j].score > poses[i].score
  }

  /**
   * The best pose: there is one exactly when some pose has a molecule and a
   * negative score; it is such a pose, its score is the least among them,
   * and no qualifying pose of the same score comes before it in the file.
   */
  lemma {:induction false} BestOfSpec(poses: seq<Pose>)
    ensures BestOf(poses).None? <==> forall p :: p in poses ==> !(p.mol && p.score < 0.0)
    ensures BestOf(poses).Some? ==>
      var b := BestOf(poses).value;
      b in poses && b.mol && b.score < 0.0 &&
      (forall p :: p in poses && p.mol && p.score < 0.0 ==> b.score <= p.score) &&
      exists i :: 0 <= i < |poses| && poses[i] == b && FirstOfItsScore(poses, i)
  {
    var q := Qualifying(poses);
    QualifyingMembers(poses);
    if q != [] {
      var b := q[FirstMinIndex(q)];
      forall p | p in poses && p.mol && p.score < 0.0
        ensures b.score <= p.score
      {
        assert p in q;
      }
      var i := EarliestBest(poses);
    }
  }

  /** How the first pose decides BestOf: it is picked when it qualifies and no later pose scores lower. */
  lemma BestOfStep(poses: seq<Pose>)
    requires poses != []
    ensures var p, rest := poses[0], BestOf(poses[1..]);
      if p.mol && p.score < 0.0 && (rest.None? || p.score <= rest.value.score) then BestOf(poses) == Some(p)
      else BestOf(poses) == rest && (p.mol && p.score < 0.0 ==> p.score > rest.value.score)
  {
    var p, q, qr := poses[0], Qualifying(poses), Qualifying(poses[1..]);
    if p.mol && p.score < 0.0 {
      assert q == [p] + qr && q[1..] == qr;
      if qr != [] {
        var k := FirstMinIndex(qr);
        assert FirstMinIndex(q) == if p.score <= qr[k].score then 0 else k + 1;
      }
    } else {
      assert q == qr;
    }
  }

  /** The position in the file of the pose BestOf picks. */
  lemma {:induction false} EarliestBest(poses: seq<Pose>) returns (i: nat)
    requires BestOf(poses).Some?
    ensures i < |poses| && poses[i] == BestOf(poses).value && FirstOfItsScore(poses, i)
  {
    BestOfStep(poses);
    if BestOf(poses) == Some(poses[0]) {
      i := 0;
    } else {
      var i' := EarliestBest(poses[1..]);
      i := i' + 1;
      FirstOfItsScoreShift(poses, i');
    }
  }

  lemma FirstOfItsScoreShift(poses: seq<Pose>, i: nat)
    requires i + 1 < |poses| && FirstOfItsScore(poses[1..], i)
    requires poses[0].mol && poses[0].score < 0.0 ==> poses[0].score > poses[i + 1].score
    ensures FirstOfItsScore(poses, i + 1)
  {
    forall j | 0 < j < i + 1
      ensures poses[j] == poses[1..][j - 1]
    {
    }
  }

  /** What MolIO.parse yields for a file: its poses if it is a structure file; nothing for any other file. */
  function PosesIn(c: Content): (poses: seq<Pose>)
    ensures !c.Structures? ==> poses == []
  {
    if c.Structures? then c.poses else []
  }

  /** A ligand file and its Uni-Dock output are never the same path. */
  lemma OutPathDiffers(sdf: Path)
    ensures OutPath(sdf) != sdf
  {
    StemSuffix(sdf.name);
  }

  /** The loop of `best_pose` over the parsed poses, collecting the qualifying ones. */
  method KeepQualifying(poses: seq<Pose>) returns (ss: seq<Pose>)
    ensures ss == Qualifying(poses)
  {
    ss := [];
    for i := 0 to |poses|
      invariant ss == Qualifying(poses[..i])
    {
      var s := poses[i];
      assert poses[..i + 1] == poses[..i] + [s];
      QualifyingAppend(poses[..i], [s]);
      if s.mol && s.score < 0.0 {
        ss := ss + [s];
      }
    }
    assert poses[..|poses|] == poses;
  }

  /** One ligand's pose and the filesystem `best_pose` leaves behind. */
  datatype PoseRun = PoseRun(pose: Option<Pose>, files: map<Path, Content>)

  /**
   * What `best_pose` does to the filesystem, as a function: no `_out.sdf`
   * leaves everything as it is; otherwise the ligand file and its output
   * are removed (both kept in debug mode), which fails when the ligand file
   * is already gone.
   */
  function BestPoseOf(files: map<Path, Content>, sdf: Path, debug: bool): (r: Result<PoseRun>)
    ensures r.Err? ==> r.error == FileNotFound(sdf)
  {
    var out := OutPath(sdf);
    if out !in files then Ok(PoseRun(None, files))
    else if !debug && sdf !in files then Err(FileNotFound(sdf))
    else Ok(PoseRun(BestOf(PosesIn(files[out])), if debug then files else files - {sdf, out}))
  }

  /**
   * A successful `best_pose` only removes files, leaves no `_out.sdf` for
   * its ligand outside debug mode, and returns a qualifying pose if any.
   */
  lemma BestPoseOfEffects(files: map<Path, Content>, sdf: Path, debug: bool)
    requires BestPoseOf(files, sdf, debug).Ok?
    ensures var run := BestPoseOf(files, sdf, debug).value;
      run.files.Keys <= files.Keys && (forall p :: p in run.files ==> run.files[p] == files[p]) &&
      (!debug ==> OutPath(sdf) !in run.files) &&
      (run.pose.Some? ==> run.pose.value.mol && run.pose.value.score < 0.0)
  {
    if OutPath(sdf) in files {
      BestOfSpec(PosesIn(files[OutPath(sdf)]));
    }
  }

  /**
   * `best_pose`: nothing to do when Uni-Dock wrote no `_out.sdf`; otherwise
   * the pose BestOf picks, after both the ligand file and its output are
   * deleted (kept in debug mode). Deleting a ligand file that is already
   * gone raises FileNotFoundError, which `best_pose` lets through.
   */
  method BestPose(fs: FileSystem, sdf: Path, debug: bool) returns (r: Result<Option<Pose>>)
    modifies fs
    ensures var out := OutPath(sdf);
      if out !in old(fs.files) then
        r == Ok(None) && fs.files == old(fs.files)
      else if !debug && sdf !in old(fs.files) then
        r == Err(FileNotFound(sdf)) && fs.files == old(fs.files)
      else
        r == Ok(BestOf(PosesIn(old(fs.files)[out]))) &&
        fs.files == if debug then old(fs.files) else old(fs.files) - {sdf, out}
    ensures var spec := BestPoseOf(old(fs.files), sdf, debug);
      (r.Err? <==> spec.Err?) &&
      (r.Err? ==> r.error == spec.error && fs.files == old(fs.files)) &&
      (r.Ok? ==> r.value == spec.value.pose && fs.files == spec.value.files)
  {
    var out := OutPath(sdf);
    var ss: seq<Pose> := [];
    if fs.Exists(out) {
      ss := KeepQualifying(PosesIn(fs.files[out]));
      if !debug {
        var gone := fs.Unlink(sdf);
        if gone.Err? {
          return Err(gone.error);
        }
        OutPathDiffers(sdf);
        gone := fs.Unlink(out);
        assert fs.files == old(fs.files) - {sdf, out};
      }
    }
    if ss == [] {
      r := Ok(None);
    } else {
      r := Ok(Some(ss[FirstMinIndex(ss)]));
    }
  }

  /** The poses of the manifest entries, in manifest order, and the filesystem left behind. */
  datatype DockRun = DockRun(poses: seq<Option<Pose>>, files: map<Path, Content>)

  /**
   * `best_pose` over the manifest entries one after the other, each on the
   * files the previous ones left; the first failure stops it.
   */
  function DockAll(files: map<Path, Content>, entries: seq<Path>, debug: bool): (r: Result<DockRun>)
    ensures r.Err? ==> r.error.FileNotFound?
    ensures r.Ok? ==> |r.value.poses| == |entries|
  {
    if entries == [] then Ok(DockRun([], files))
    else
      var prev := DockAll(files, entries[..|entries| - 1], debug);
      if prev.Err? then prev
      else
        var step := BestPoseOf(prev.value.files, entries[|entries| - 1], debug);
        if step.Err? then Err(step.error)
        else Ok(DockRun(prev.value.poses + [step.value.pose], step.value.files))
  }

  /** A run that gets past its last entry extends the run of the entries before it by one pose. */
  lemma DockAllStep(files: map<Path, Content>, entries: seq<Path>, debug: bool)
    requires entries != [] && DockAll(files, entries[..|entries| - 1], debug).Ok?
    requires BestPoseOf(DockAll(files, entries[..|entries| - 1], debug).value.files, entries[|entries| - 1], debug).Ok?
    ensures var prev := DockAll(files, entries[..|entries| - 1], debug).value;
      var step := BestPoseOf(prev.files, entries[|entries| - 1], debug).value;
      DockAll(files, entries, debug) == Ok(DockRun(prev.poses + [step.pose], step.files))
  {
  }

  /** A successful run only ever removes files: whatever is left holds what it held before. */
  lemma {:induction false} DockAllRemovesOnly(files: map<Path, Content>, entries: seq<Path>, debug: bool)
    requires DockAll(files, entries, debug).Ok?
    ensures var after := DockAll(files, entries, debug).value.files;
      forall p :: p in after ==> p in files && after[p] == files[p]
    decreases |entries|
  {
    if entries != [] {
      var init := entries[..|entries| - 1];
      DockAllRemovesOnly(files, init, debug);
      BestPoseOfEffects(DockAll(files, init, debug).value.files, entries[|entries| - 1], debug);
    }
  }

  /** Outside debug mode, no entry's `_out.sdf` is left after a successful run. */
  lemma {:induction false} DockAllClearsOutputs(files: map<Path, Content>, entries: seq<Path>)
    requires DockAll(files, entries, false).Ok?
    ensures forall i :: 0 <= i < |entries| ==> OutPath(entries[i]) !in DockAll(files, entries, false).value.files
    decreases |entries|
  {
    if entries != [] {
      var init := entries[..|entries| - 1];
      DockAllClearsOutputs(files, init);
      var prev := DockAll(files, init, false).value.files;
      BestPoseOfEffects(prev, entries[|entries| - 1], false);
      assert forall i :: 0 <= i < |init| ==> init[i] == entries[i];
    }
  }

  /** Every pose a successful run returns has a molecule and a negative score. */
  lemma {:induction false} DockAllQualifies(files: map<Path, Content>, entries: seq<Path>, debug: bool)
    requires DockAll(files, entries, debug).Ok?
    ensures forall e :: e in DockAll(files, entries, debug).value.poses && e.Some? ==> e.value.mol && e.value.score < 0.0
    decreases |entries|
  {
    if entries != [] {
      var init := entries[..|entries| - 1];
      DockAllQualifies(files, init, debug);
      BestPoseOfEffects(DockAll(files, init, debug).value.files, entries[|entries| - 1], debug);
    }
  }

  /** Once an entry fails, the rest of the manifest does not matter: the whole run fails with that error. */
  lemma {:induction false} DockAllStops(files: map<Path, Content>, entries: seq<Path>, k: nat, debug: bool)
    requires k <= |entries| && DockAll(files, entries[..k], debug).Err?
    ensures DockAll(files, entries, debug) == DockAll(files, entries[..k], debug)
    decreases |entries|
  {
    if k < |entries| {
      var init := entries[..|entries| - 1];
      assert init[..k] == entries[..k];
      DockAllStops(files, init, k, debug);
    } else {
      assert entries[..k] == entries;
    }
  }

  /** The pose the docking output of one entry yields, or None when Uni-Dock wrote none. */
  function BestIn(files: map<Path, Content>, sdf: Path): Option<Pose>
  {
    if OutPath(sdf) in files then BestOf(PosesIn(files[OutPath(sdf)])) else None
  }

  /** In debug mode `best_pose` deletes nothing and cannot fail. */
  lemma BestPoseOfDebug(files: map<Path, Content>, sdf: Path)
    ensures BestPoseOf(files, sdf, true) == Ok(PoseRun(BestIn(files, sdf), files))
  {
  }

  /** In debug mode nothing is removed, so every entry's pose is its own best pose on the docked files. */
  lemma {:induction false} DockAllDebug(files: map<Path, Content>, entries: seq<Path>)
    ensures DockAll(files, entries, true) == Ok(DockRun(BestsIn(files, entries), files))
    decreases |entries|
  {
    if entries != [] {
      var init, last := entries[..|entries| - 1], entries[|entries| - 1];
      DockAllDebug(files, init);
      BestPoseOfDebug(files, last);
      DockAllStep(files, entries, true);
    }
  }

  /** Each entry's own best pose, in manifest order. */
  function BestsIn(files: map<Path, Content>, entries: seq<Path>): (ps: seq<Option<Pose>>)
    ensures |ps| == |entries|
  {
    if entries == [] then []
    else BestsIn(files, entries[..|entries| - 1]) + [BestIn(files, entries[|entries| - 1])]
  }

  /** Position i holds the best pose of entry i. */
  lemma {:induction false} BestsInAt(files: map<Path, Content>, entries: seq<Path>, i: nat)
    requires i < |entries|
    ensures BestsIn(files, entries)[i] == BestIn(files, entries[i])
    decreases |entries|
  {
    var init := entries[..|entries| - 1];
    if i < |init| {
      BestsInAt(files, init, i);
      assert init[i] == entries[i];
    }
  }

  /** `vstool.parallel_cpu_task(best_pose, ligands)`, run in manifest order: the poses, or the first failure. */
  method BestPoses(fs: FileSystem, entries: seq<Path>, debug: bool) returns (r: Result<seq<Option<Pose>>>)
    modifies fs
    ensures var run := DockAll(old(fs.files), entries, debug);
      (r.Err? <==> run.Err?) &&
      (r.Err? ==> r.error == run.error) &&
      (r.Ok? ==> r.value == run.value.poses && fs.files == run.value.files)
  {
    ghost var docked := fs.files;
    var poses: seq<Option<Pose>> := [];
    for i := 0 to |entries|
      invariant DockAll(docked, entries[..i], debug) == Ok(DockRun(poses, fs.files))
    {
      assert entries[..i + 1][..i] == entries[..i];
      var p := BestPose(fs, entries[i], debug);
      if p.Err? {
        DockAllStops(docked, entries, i + 1, debug);
        return Err(p.error);
      }
      poses := poses + [p.value];
    }
    assert entries[..|entries|] == entries;
    r := Ok(poses);
  }

  /**
   * The stage's `main` for one batch: manifest, one Uni-Dock run over it
   * (`engine` is what Uni-Dock writes), the best pose of every manifest
   * entry in manifest order, and the consolidated file, written only when
   * there is at least one entry. Returns the consolidated path if written.
   */
  method Dock(fs: FileSystem, batch: Path, ligs: seq<Ligand>, engine: map<Path, Content>, debug: bool)
      returns (r: Result<Option<Path>>)
    requires batch.name != ""
    modifies fs
    ensures r.Ok? ==> (r.value.Some? <==> Manifest(ligs, debug) != [])
    ensures r.Ok? && r.value.None? ==>
      fs.files == old(fs.files)[ManifestPath(batch) := Text([])] + engine
    ensures r.Ok? && r.value.Some? ==>
      r.value.value == ConsolidatedPath(batch) &&
      ConsolidatedPath(batch) in fs.files &&
      var written := fs.files[ConsolidatedPath(batch)];
      written.PoseList? && |written.entries| == |Manifest(ligs, debug)| &&
      forall e :: e in written.entries && e.Some? ==> e.value.mol && e.value.score < 0.0
    ensures r.Err? ==> r.error.FileNotFound?
    ensures var entries := LigandPaths(batch.dir, Manifest(ligs, debug));
      var docked := Saved(old(fs.files), batch.dir, Manifest(ligs, debug))[ManifestPath(batch) := Text(Lines(entries))] + engine;
      var run := DockAll(docked, entries, debug);
      (r.Err? <==> run.Err?) &&
      (r.Ok? ==> fs.files == if run.value.poses == [] then run.value.files
                             else run.value.files[ConsolidatedPath(batch) := PoseList(run.value.poses)])
  {
    var manifest, entries := LigandList(fs, batch, ligs, debug);
    fs.WriteAll(engine);
    ghost var docked := fs.files;
    var res := BestPoses(fs, entries, debug);
    if res.Err? {
      return Err(res.error);
    }
    DockAllQualifies(docked, entries, debug);
    var poses := res.value;
    if |poses| > 0 {
      fs.Write(ConsolidatedPath(batch), PoseList(poses));
      r := Ok(Some(ConsolidatedPath(batch)));
    } else {
      assert Manifest(ligs, debug) == [];
      r := Ok(None);
    }
  }

  // ----- the source as written -----

  /**
   * `ligand_list` as written: its first statement calls `logger.debug`, but
   * docking.py calls `vstool.setup_logger` without binding the result, so
   * the name `logger` is unbound and nothing is parsed or written.
   */
  function LigandListAsWritten(batch: Path, ligs: seq<Ligand>, debug: bool): (r: Result<(Path, seq<Path>)>)
    ensures r.Err? && r.error == NameError("logger")
  {
    Err(NameError("logger"))
  }

  /** As written, a batch with a writable ligand gets no manifest, though LigandList would list that ligand. */
  lemma LoggerUnboundLosesManifest(batch: Path, l: Ligand, debug: bool)
    requires l.writable
    ensures Manifest([l], debug) == [l]
    ensures LigandListAsWritten(batch, [l], debug).Err?
  {
    assert Accepted([l]) == Accepted([]) + [l];
  }
}
