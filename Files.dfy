/**
 * The environment the stages share: the filesystem, which is the only
 * channel between stages and the only record of which stage is done, the
 * records the external readers and writers exchange with it, and the
 * errors the stages raise.
 */
module Files {
  import opened Paths

  datatype Option<T> = None | Some(value: T)

  datatype Result<T> = Ok(value: T) | Err(error: Error)

  /** The Python exceptions the modelled code raises or lets through. */
  datatype Error =
    | FileNotFound(path: Path)    // os.unlink or a reader on a missing file
    | Unreadable(path: Path)      // a reader given a file that is not of its format
    | NameError(name: string)     // a name used but never bound
    | TypeError(what: string)     // an operation applied to a value of the wrong type
    | AttributeError(name: string) // an attribute looked up on a value that lacks it
    | ValueError(message: string) // raised explicitly, or by a failed unpacking

  /** One record of a structure file as MolIO yields it: whether it holds a usable molecule, and its docking score. */
  datatype Pose = Pose(title: string, mol: bool, score: real)

  /** A row of a two-column `title,score` table. */
  datatype Scored = Scored(title: string, score: real)

  /** A row of a `smiles,title,score` prediction table. */
  datatype Predicted = Predicted(smiles: string, title: string, score: real)

  /**
   * What a file holds, as far as the stages look into it. Files written by
   * the external tools are described by what those tools are given.
   */
  datatype Content =
    | Molecule(title: string)                    // a one-ligand SDF written by MolIO
    | Structures(poses: seq<Pose>)               // an SDF of poses, e.g. Uni-Dock's `_out.sdf`
    | PoseList(entries: seq<Option<Pose>>)       // the list handed to MolIO.write by the docking stage
    | Sampled(source: Path, percent: real)       // what MolIO.sample_sdf wrote from `source`
    | Text(lines: seq<string>)                   // a file written line by line
    | Table(rows: seq<Scored>)                   // a `title,score` CSV written by pandas
    | Predictions(predicted: seq<Predicted>)     // a `smiles,title,score` CSV written by the predictor

  /** The entries of a directory listing whose name matches the glob `*<tail>`, in listing order. */
  function Glob(listing: seq<Path>, tail: string): (found: seq<Path>)
    ensures forall p :: p in found <==> p in listing && EndsWith(p.name, tail)
    ensures |found| <= |listing|
  {
    if listing == [] then []
    else Glob(listing[..|listing| - 1], tail)
         + (if EndsWith(listing[|listing| - 1].name, tail) then [listing[|listing| - 1]] else [])
  }

  /**
   * The glob keeps listing order: the matches in a listing made of two
   * parts are the first part's matches followed by the second's, and a
   * one-entry listing matches that entry exactly when its name ends with
   * the tail.
   */
  lemma {:induction false} GlobAppend(a: seq<Path>, b: seq<Path>, tail: string)
    ensures Glob(a + b, tail) == Glob(a, tail) + Glob(b, tail)
    ensures |a| == 1 ==> Glob(a, tail) == if EndsWith(a[0].name, tail) then a else []
    decreases |b|
  {
    assert |a| == 1 ==> a[..0] == [];
    if b == [] {
      assert a + b == a;
    } else {
      var init := b[..|b| - 1];
      assert (a + b)[..|a + b| - 1] == a + init;
      assert (a + b)[|a + b| - 1] == b[|b| - 1];
      GlobAppend(a, init, tail);
    }
  }

  /** The filesystem: which paths exist, and what each holds. */
  class FileSystem {
    var files: map<Path, Content>

    constructor (initial: map<Path, Content>)
      ensures files == initial
    {
      files := initial;
    }

    /** `Path.exists()` */
    predicate Exists(p: Path)
      reads this
    {
      p in files
    }

    /** Create or overwrite one file. */
    method Write(p: Path, c: Content)
      modifies this
      ensures files == old(files)[p := c]
    {
      files := files[p := c];
    }

    /** `os.unlink`: removes an existing file; on a missing one raises FileNotFoundError and changes nothing. */
    method Unlink(p: Path) returns (r: Result<()>)
      modifies this
      ensures r == if p in old(files) then Ok(()) else Err(FileNotFound(p))
      ensures files == old(files) - {p}
    {
      if p in files {
        r := Ok(());
      } else {
        r := Err(FileNotFound(p));
      }
      files := files - {p};
    }

    /** An external tool writes a batch of files at once. */
    method WriteAll(written: map<Path, Content>)
      modifies this
      ensures files == old(files) + written
    {
      files := files + written;
    }
  }
}
