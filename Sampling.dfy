/**
 * The sampling stage (`sampling` command): every library file whose name
 * ends with the extension is handed to MolIO's random sampler, which
 * writes the sample under the same name in the output directory; a
 * library whose sample already exists is skipped.
 *
 * The sampler itself is not modelled: the file it writes is described by
 * its arguments, the source library and the fraction.
 */
module Sampling {
  import opened Paths
  import opened Files

  /** `outdir / sdf.name` */
  function OutputPath(sdf: Path, outdir: string): (p: Path)
    ensures p.dir == outdir && p.name == sdf.name
  {
    Join(outdir, sdf.name)
  }

  /** The filesystem after `sampling` of one library: unchanged when the output exists, otherwise one sample written. */
  function SampleEffect(files: map<Path, Content>, sdf: Path, percent: real, outdir: string): (after: map<Path, Content>)
    ensures after.Keys == files.Keys + {OutputPath(sdf, outdir)}
    ensures forall p :: p in files ==> after[p] == files[p]
  {
    var output := OutputPath(sdf, outdir);
    if output in files then files else files[output := Sampled(sdf, percent)]
  }

  /** `sampling`: skip when the output exists, otherwise sample once into it; the output path is returned either way. */
  method Sample(fs: FileSystem, sdf: Path, percent: real, outdir: string) returns (output: Path)
    modifies fs
    ensures output == OutputPath(sdf, outdir)
    ensures fs.files == SampleEffect(old(fs.files), sdf, percent, outdir)
  {
    output := Join(outdir, sdf.name);
    if !fs.Exists(output) {
      fs.Write(output, Sampled(sdf, percent));
    }
  }

  /** The pool size `min(len(ligands), cpu_count())`. */
  function PoolSize(files: nat, cpus: nat): (n: nat)
    ensures n <= files && n <= cpus
    ensures n == files || n == cpus
  {
    if files <= cpus then files else cpus
  }

  /** The parallel `sampling` over the matched libraries, as a sequential map in list order. */
  function SampledAll(files: map<Path, Content>, libs: seq<Path>, percent: real, outdir: string): (after: map<Path, Content>)
    ensures files.Keys <= after.Keys
  {
    if libs == [] then files
    else
      var last := libs[|libs| - 1];
      SampleEffect(SampledAll(files, libs[..|libs| - 1], percent, outdir), last, percent, outdir)
  }

  /** The output paths `sampling` returns for the matched libraries. */
  function OutputPaths(libs: seq<Path>, outdir: string): (outs: seq<Path>)
    ensures |outs| == |libs|
    ensures forall i :: 0 <= i < |libs| ==> outs[i] == OutputPath(libs[i], outdir)
  {
    seq(|libs|, i requires 0 <= i < |libs| => OutputPath(libs[i], outdir))
  }

  /**
   * `main`: the libraries of the listing whose name ends with `extension`
   * are sampled, with a pool of `min(count, cpus)` workers. `listing` is
   * the entries of the library directory, `cpus` the machine's CPU count.
   */
  method SampleLibraries(fs: FileSystem, listing: seq<Path>, extension: string, percent: real, outdir: string, cpus: nat)
    returns (outs: seq<Path>, processes: nat)
    modifies fs
    ensures var libs := Glob(listing, extension);
      processes == PoolSize(|libs|, cpus) &&
      outs == OutputPaths(libs, outdir) &&
      fs.files == SampledAll(old(fs.files), libs, percent, outdir)
  {
    var libs := Glob(listing, extension);
    processes := PoolSize(|libs|, cpus);
    outs := SampleEach(fs, libs, percent, outdir);
  }

  /** The fan-out of `sampling` over the libraries, one after the other. */
  method SampleEach(fs: FileSystem, libs: seq<Path>, percent: real, outdir: string) returns (outs: seq<Path>)
    modifies fs
    ensures outs == OutputPaths(libs, outdir)
    ensures fs.files == SampledAll(old(fs.files), libs, percent, outdir)
  {
    outs := [];
    ghost var start := fs.files;
    for i := 0 to |libs|
      invariant outs == OutputPaths(libs[..i], outdir)
      invariant fs.files == SampledAll(start, libs[..i], percent, outdir)
    {
      SampledAllStep(start, libs, i, percent, outdir);
      var out := Sample(fs, libs[i], percent, outdir);
      outs := outs + [out];
    }
    assert libs[..|libs|] == libs;
  }

  lemma SampledAllStep(files: map<Path, Content>, libs: seq<Path>, i: nat, percent: real, outdir: string)
    requires i < |libs|
    ensures SampledAll(files, libs[..i + 1], percent, outdir)
      == SampleEffect(SampledAll(files, libs[..i], percent, outdir), libs[i], percent, outdir)
    ensures OutputPaths(libs[..i + 1], outdir) == OutputPaths(libs[..i], outdir) + [OutputPath(libs[i], outdir)]
  {
    var prefix := libs[..i + 1];
    assert prefix[..i] == libs[..i] && prefix[i] == libs[i];
  }

  /**
   * Sampling never overwrites: every file that existed keeps its content,
   * and every library's output exists afterwards.
   */
  lemma {:induction false} SampledAllKeeps(files: map<Path, Content>, libs: seq<Path>, percent: real, outdir: string)
    ensures var after := SampledAll(files, libs, percent, outdir);
      (forall p :: p in files ==> p in after && after[p] == files[p]) &&
      (forall i :: 0 <= i < |libs| ==> OutputPath(libs[i], outdir) in after)
  {
    if libs != [] {
      var init := libs[..|libs| - 1];
      SampledAllKeeps(files, init, percent, outdir);
      assert forall i :: 0 <= i < |init| ==> libs[i] == init[i];
    }
  }

  /** Everything a run writes is a sample in the output directory, named after a matched library and drawn from it. */
  lemma {:induction false} SampledAllWrites(files: map<Path, Content>, libs: seq<Path>, percent: real, outdir: string)
    ensures var after := SampledAll(files, libs, percent, outdir);
      forall p :: p in after && p !in files ==>
        p.dir == outdir && exists i :: 0 <= i < |libs| && p == OutputPath(libs[i], outdir) && after[p] == Sampled(libs[i], percent)
  {
    if libs != [] {
      var n := |libs| - 1;
      var init := libs[..n];
      SampledAllWrites(files, init, percent, outdir);
      SampledAllKeeps(files, init, percent, outdir);
      var before := SampledAll(files, init, percent, outdir);
      var after := SampledAll(files, libs, percent, outdir);
      forall p | p in after && p !in files
        ensures p.dir == outdir && exists i :: 0 <= i < |libs| && p == OutputPath(libs[i], outdir) && after[p] == Sampled(libs[i], percent)
      {
        if p in before {
          var i :| 0 <= i < |init| && p == OutputPath(init[i], outdir) && before[p] == Sampled(init[i], percent);
          assert libs[i] == init[i];
        } else {
          assert p == OutputPath(libs[n], outdir);
        }
      }
    }
  }

  /** Running the stage a second time writes nothing: every output it would write already exists. */
  lemma SampledAllIdempotent(files: map<Path, Content>, libs: seq<Path>, percent: real, outdir: string)
    ensures var after := SampledAll(files, libs, percent, outdir);
      SampledAll(after, libs, percent, outdir) == after
  {
    var after := SampledAll(files, libs, percent, outdir);
    SampledAllKeeps(files, libs, percent, outdir);
    AllPresent(after, libs, percent, outdir);
  }

  /** When every output already exists, the stage changes nothing. */
  lemma {:induction false} AllPresent(files: map<Path, Content>, libs: seq<Path>, percent: real, outdir: string)
    requires forall i :: 0 <= i < |libs| ==> OutputPath(libs[i], outdir) in files
    ensures SampledAll(files, libs, percent, outdir) == files
  {
    if libs != [] {
      var init := libs[..|libs| - 1];
      assert forall i :: 0 <= i < |init| ==> init[i] == libs[i];
      AllPresent(files, init, percent, outdir);
    }
  }
}
