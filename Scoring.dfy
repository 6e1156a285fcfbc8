/**
 * The scoring stage (`scoring` command): every consolidated docking file
 * of the work directory is read record by record, each usable record
 * becomes one `smiles,title,score` line, and the lines of one file are
 * saved beside it with the suffix `.csv`. The whole stage is skipped once
 * the training table exists.
 *
 * The RDKit supplier is a parameter: for each file it gives the records
 * in file order, None for a record it could not read.
 */
module Scoring {
  import opened Paths
  import opened Files

  /**
   * A molecule as the supplier yields it: its SMILES, or None when
   * `MolToSmiles` fails on it, and the properties stored with it.
   */
  datatype Record = Record(smiles: Option<string>, props: map<string, string>)

  const TrainingTable := "train.smiles.score.csv"

  /** The files the stage parses: `*.docking.sdf`. */
  const DockingTail := ".docking.sdf"

  /** The per-file output: the docking file with its last suffix replaced by `.csv`. */
  function CsvPath(sdf: Path): (p: Path)
    requires sdf.name != ""
    ensures p.dir == sdf.dir
    ensures Stem(sdf.name) <= p.name && |p.name| == |Stem(sdf.name)| + |".csv"| && EndsWith(p.name, ".csv")
  {
    Join(sdf.dir, WithSuffix(sdf.name, ".csv"))
  }

  /**
   * The line of one record, or None when converting it or reading its
   * `score` or `_Name` property raises, which `parse` logs and skips.
   */
  function ScoreLine(rec: Record): (line: Option<string>)
    ensures line.Some? <==> rec.smiles.Some? && "score" in rec.props && "_Name" in rec.props
    ensures line.Some? ==>
      line.value == rec.smiles.value + "," + rec.props["_Name"] + "," + rec.props["score"]
  {
    match rec.smiles
    case None => None
    case Some(smiles) =>
      if "score" in rec.props && "_Name" in rec.props then
        Some(smiles + "," + rec.props["_Name"] + "," + rec.props["score"])
      else None
  }

  /** What one supplier item contributes: nothing for an unreadable record or one whose line fails. */
  function LineOf(item: Option<Record>): (line: seq<string>)
    ensures |line| <= 1
  {
    match item
    case None => []
    case Some(rec) => if ScoreLine(rec).Some? then [ScoreLine(rec).value] else []
  }

  /** The lines of a file: each usable record's line, in record order. */
  function ScoreLines(records: seq<Option<Record>>): (lines: seq<string>)
    ensures |lines| <= |records|
  {
    if records == [] then []
    else ScoreLines(records[..|records| - 1]) + LineOf(records[|records| - 1])
  }

  /** Lines are made record by record, so the lines of a file are the lines of its parts, in order. */
  lemma {:induction false} ScoreLinesAppend(a: seq<Option<Record>>, b: seq<Option<Record>>)
    ensures ScoreLines(a + b) == ScoreLines(a) + ScoreLines(b)
    decreases |b|
  {
    if b == [] {
      assert a + b == a;
    } else {
      var b' := b[..|b| - 1];
      assert (a + b)[..|a + b| - 1] == a + b';
      assert (a + b)[|a + b| - 1] == b[|b| - 1];
      ScoreLinesAppend(a, b');
    }
  }

  /**
   * One failing record does not stop the file: a record the supplier could
   * not read, or whose line fails, is dropped and the records around it
   * still give their lines.
   */
  lemma SkipOne(before: seq<Option<Record>>, bad: Option<Record>, after: seq<Option<Record>>)
    requires bad.None? || ScoreLine(bad.value).None?
    ensures ScoreLines(before + [bad] + after) == ScoreLines(before) + ScoreLines(after)
  {
    assert LineOf(bad) == [];
    assert ScoreLines(before + [bad]) == ScoreLines(before) by {
      assert (before + [bad])[..|before|] == before;
    }
    ScoreLinesAppend(before + [bad], after);
  }

  lemma ScoreLinesLast(records: seq<Option<Record>>)
    requires records != []
    ensures ScoreLines(records) == ScoreLines(records[..|records| - 1]) + LineOf(records[|records| - 1])
  {
  }

  /** A file gives no line exactly when none of its records is usable. */
  lemma {:induction false} NoLines(records: seq<Option<Record>>)
    ensures (forall i :: 0 <= i < |records| ==> LineOf(records[i]) == []) <==> ScoreLines(records) == []
  {
    if records != [] {
      var init, last := records[..|records| - 1], records[|records| - 1];
      NoLines(init);
      ScoreLinesLast(records);
      assert (forall i :: 0 <= i < |records| ==> LineOf(records[i]) == [])
        <==> (forall i :: 0 <= i < |init| ==> LineOf(init[i]) == []) && LineOf(last) == [] by {
        assert forall i :: 0 <= i < |init| ==> init[i] == records[i];
      }
    }
  }

  /** Every line is the line of one usable record of the file. */
  lemma {:induction false} LinesFromRecords(records: seq<Option<Record>>)
    ensures forall k :: 0 <= k < |ScoreLines(records)| ==>
      exists i :: 0 <= i < |records| && records[i].Some? && ScoreLine(records[i].value) == Some(ScoreLines(records)[k])
  {
    if records != [] {
      var init := records[..|records| - 1];
      var last := records[|records| - 1];
      LinesFromRecords(init);
      var lines := ScoreLines(records);
      ScoreLinesLast(records);
      forall k | 0 <= k < |ScoreLines(records)|
        ensures exists i :: 0 <= i < |records| && records[i].Some? && ScoreLine(records[i].value) == Some(ScoreLines(records)[k])
      {
        if k < |ScoreLines(init)| {
          var i :| 0 <= i < |init| && init[i].Some? && ScoreLine(init[i].value) == Some(ScoreLines(init)[k]);
          assert records[i] == init[i] && lines[k] == ScoreLines(init)[k];
          assert ScoreLine(records[i].value) == Some(ScoreLines(records)[k]);
        } else {
          var i := |records| - 1;
          assert LineOf(last) != [] && lines[k] == LineOf(last)[0];
          assert records[i] == last && last.Some?;
          assert ScoreLine(records[i].value) == Some(ScoreLines(records)[k]);
        }
      }
    } else {
      assert ScoreLines(records) == [];
    }
  }

  /**
   * The filesystem after `parse` of one file: every other file is left as it
   * was; when a line survived, the CSV holds exactly the file's lines,
   * whatever was there before; otherwise nothing is written.
   */
  function ParseEffect(files: map<Path, Content>, sdf: Path, records: seq<Option<Record>>): (after: map<Path, Content>)
    requires sdf.name != ""
    ensures forall p :: p in files && p != CsvPath(sdf) ==> p in after && after[p] == files[p]
    ensures ScoreLines(records) != [] ==> CsvPath(sdf) in after && after[CsvPath(sdf)] == Text(ScoreLines(records))
    ensures ScoreLines(records) != [] ==> after.Keys == files.Keys + {CsvPath(sdf)}
    ensures ScoreLines(records) == [] ==> after == files
  {
    var lines := ScoreLines(records);
    if lines == [] then files else files[CsvPath(sdf) := Text(lines)]
  }

  /** `parse`: the lines of the file's records, saved to its CSV when there are any; the CSV path is returned either way. */
  method Parse(fs: FileSystem, sdf: Path, records: seq<Option<Record>>) returns (out: Path)
    requires sdf.name != ""
    modifies fs
    ensures out == CsvPath(sdf)
    ensures fs.files == ParseEffect(old(fs.files), sdf, records)
  {
    out := CsvPath(sdf);
    var ss: seq<string> := [];
    for i := 0 to |records|
      invariant ss == ScoreLines(records[..i])
    {
      assert records[..i + 1][..i] == records[..i];
      match records[i]
      case None =>
      case Some(rec) =>
        var line := ScoreLine(rec);
        if line.Some? {
          ss := ss + [line.value];
        }
    }
    assert records[..|records|] == records;
    if ss != [] {
      fs.Write(out, Text(ss));
    }
  }

  /** The parallel `parse` over the found files, as a sequential map in list order. */
  function ParsedAll(files: map<Path, Content>, sdfs: seq<Path>, supply: Path -> seq<Option<Record>>): (after: map<Path, Content>)
    requires forall i :: 0 <= i < |sdfs| ==> sdfs[i].name != ""
    ensures files.Keys <= after.Keys
  {
    if sdfs == [] then files
    else
      var last := sdfs[|sdfs| - 1];
      ParseEffect(ParsedAll(files, sdfs[..|sdfs| - 1], supply), last, supply(last))
  }

  /** The CSV paths `parse` returns for the found files. */
  function CsvPaths(sdfs: seq<Path>): (outs: seq<Path>)
    requires forall i :: 0 <= i < |sdfs| ==> sdfs[i].name != ""
    ensures |outs| == |sdfs|
    ensures forall i :: 0 <= i < |sdfs| ==> outs[i] == CsvPath(sdfs[i])
  {
    seq(|sdfs|, i requires 0 <= i < |sdfs| => CsvPath(sdfs[i]))
  }

  /** Every matched file name is non-empty, since it ends with the glob's tail. */
  lemma GlobNamed(listing: seq<Path>, tail: string)
    requires tail != ""
    ensures forall i :: 0 <= i < |Glob(listing, tail)| ==> Glob(listing, tail)[i].name != ""
  {
    var found := Glob(listing, tail);
    forall i | 0 <= i < |found|
      ensures found[i].name != ""
    {
      assert found[i] in found;
    }
  }

  /**
   * `main`: skipped when `<wd>/train.smiles.score.csv` exists; otherwise
   * every `*.docking.sdf` of the listing is parsed. `listing` is the
   * entries of `wd`, `supply` the records the supplier yields for a file.
   * The returned paths are those `parse` returned (empty when skipped).
   */
  method ScoreDocked(fs: FileSystem, wd: string, listing: seq<Path>, supply: Path -> seq<Option<Record>>)
    returns (outs: seq<Path>)
    modifies fs
    ensures Join(wd, TrainingTable) in old(fs.files) ==> outs == [] && fs.files == old(fs.files)
    ensures Join(wd, TrainingTable) !in old(fs.files) ==>
      var found := Glob(listing, DockingTail);
      (forall i :: 0 <= i < |found| ==> found[i].name != "") &&
      outs == CsvPaths(found) &&
      fs.files == ParsedAll(old(fs.files), found, supply)
  {
    outs := [];
    if fs.Exists(Join(wd, TrainingTable)) {
      return;
    }
    var found := Glob(listing, DockingTail);
    GlobNamed(listing, DockingTail);
    outs := ParseEach(fs, found, supply);
  }

  /** The fan-out of `parse` over the found files, one after the other. */
  method ParseEach(fs: FileSystem, sdfs: seq<Path>, supply: Path -> seq<Option<Record>>) returns (outs: seq<Path>)
    requires forall i :: 0 <= i < |sdfs| ==> sdfs[i].name != ""
    modifies fs
    ensures outs == CsvPaths(sdfs)
    ensures fs.files == ParsedAll(old(fs.files), sdfs, supply)
  {
    outs := [];
    ghost var start := fs.files;
    for i := 0 to |sdfs|
      invariant outs == CsvPaths(sdfs[..i])
      invariant fs.files == ParsedAll(start, sdfs[..i], supply)
    {
      ParsedAllStep(start, sdfs, i, supply);
      CsvPathsStep(sdfs, i);
      var out := Parse(fs, sdfs[i], supply(sdfs[i]));
      outs := outs + [out];
    }
    assert sdfs[..|sdfs|] == sdfs;
  }

  lemma ParsedAllStep(files: map<Path, Content>, sdfs: seq<Path>, i: nat, supply: Path -> seq<Option<Record>>)
    requires i < |sdfs| && forall j :: 0 <= j < |sdfs| ==> sdfs[j].name != ""
    ensures ParsedAll(files, sdfs[..i + 1], supply)
      == ParseEffect(ParsedAll(files, sdfs[..i], supply), sdfs[i], supply(sdfs[i]))
  {
    var prefix := sdfs[..i + 1];
    assert prefix[..i] == sdfs[..i] && prefix[i] == sdfs[i];
  }

  lemma CsvPathsStep(sdfs: seq<Path>, i: nat)
    requires i < |sdfs| && forall j :: 0 <= j < |sdfs| ==> sdfs[j].name != ""
    ensures CsvPaths(sdfs[..i + 1]) == CsvPaths(sdfs[..i]) + [CsvPath(sdfs[i])]
  {
  }

  /** `parse` only ever writes CSV files: no file is removed, and any file that is new or changed is named `*.csv`. */
  lemma {:induction false} ParsedAllWritesCsv(files: map<Path, Content>, sdfs: seq<Path>, supply: Path -> seq<Option<Record>>)
    requires forall i :: 0 <= i < |sdfs| ==> sdfs[i].name != ""
    ensures var after := ParsedAll(files, sdfs, supply);
      (forall p :: p in files ==> p in after) &&
      (forall p :: p in after && (p !in files || after[p] != files[p]) ==> EndsWith(p.name, ".csv"))
  {
    if sdfs != [] {
      ParsedAllWritesCsv(files, sdfs[..|sdfs| - 1], supply);
      CsvPathIsCsv(sdfs[|sdfs| - 1]);
    }
  }

  /** The stage's outputs are CSV files. */
  lemma CsvPathIsCsv(sdf: Path)
    requires sdf.name != ""
    ensures EndsWith(CsvPath(sdf).name, ".csv")
  {
  }

  /** Two different docking files never share a CSV path, so no file's lines overwrite another's. */
  lemma CsvPathInjective(a: Path, b: Path)
    requires EndsWith(a.name, DockingTail) && EndsWith(b.name, DockingTail)
    requires CsvPath(a) == CsvPath(b)
    ensures a == b
  {
    DockingName(a.name);
    DockingName(b.name);
    var sa, sb := Stem(a.name), Stem(b.name);
    AppendCancel(sa, sb, ".csv");
    StemSuffix(a.name);
    StemSuffix(b.name);
  }

  /** A docking file's suffix is `.sdf`, and its stem is what precedes it. */
  lemma DockingName(name: string)
    requires EndsWith(name, DockingTail)
    ensures Suffix(name) == ".sdf" && Stem(name) == name[..|name| - 4]
  {
    assert name[|name| - 4..] == DockingTail[8..] == ".sdf";
    SuffixOfEnding(name, ".sdf");
  }

  lemma AppendCancel(x: string, y: string, t: string)
    requires x + t == y + t
    ensures x == y
  {
    assert |x| == |y|;
    assert x == (x + t)[..|x|];
  }

  /** A CSV written by the stage is never itself a docking file, nor the training table, so a rerun does not parse it and the skip test does not see it. */
  lemma CsvNotDocking(sdf: Path)
    requires EndsWith(sdf.name, DockingTail)
    ensures !EndsWith(CsvPath(sdf).name, DockingTail)
    ensures CsvPath(sdf).name != TrainingTable
  {
    DockingName(sdf.name);
    var stem := Stem(sdf.name);
    var name := CsvPath(sdf).name;
    assert name == stem + ".csv";
    assert |stem| >= 8;
    assert stem[|stem| - 1] == sdf.name[|sdf.name| - 5] == 'g';
    assert name[|name| - 5] == 'g';
    assert name[|name| - 1] == 'v';
    assert TrainingTable[|TrainingTable| - 5] == 'e';
  }

  /**
   * When no other found file is the same as the k-th, the k-th file's CSV
   * holds exactly its own lines afterwards, provided it had any.
   */
  lemma ParsedAllContent(files: map<Path, Content>, sdfs: seq<Path>, supply: Path -> seq<Option<Record>>, k: nat)
    requires forall i :: 0 <= i < |sdfs| ==> EndsWith(sdfs[i].name, DockingTail)
    requires k < |sdfs| && forall i :: 0 <= i < |sdfs| && i != k ==> sdfs[i] != sdfs[k]
    requires ScoreLines(supply(sdfs[k])) != []
    ensures forall i :: 0 <= i < |sdfs| ==> sdfs[i].name != ""
    ensures var after := ParsedAll(files, sdfs, supply);
      CsvPath(sdfs[k]) in after && after[CsvPath(sdfs[k])] == Text(ScoreLines(supply(sdfs[k])))
  {
    DockingNamed(sdfs);
    forall i | 0 <= i < |sdfs| && i != k
      ensures CsvPath(sdfs[i]) != CsvPath(sdfs[k])
    {
      if CsvPath(sdfs[i]) == CsvPath(sdfs[k]) {
        CsvPathInjective(sdfs[i], sdfs[k]);
      }
    }
    CsvHolds(files, sdfs, supply, k, CsvPath(sdfs[k]));
  }

  /** The k-th file writes its lines; the files after it write other CSVs, so those lines stay. */
  lemma CsvHolds(files: map<Path, Content>, sdfs: seq<Path>, supply: Path -> seq<Option<Record>>, k: nat, csv: Path)
    requires forall i :: 0 <= i < |sdfs| ==> sdfs[i].name != ""
    requires k < |sdfs| && csv == CsvPath(sdfs[k]) && ScoreLines(supply(sdfs[k])) != []
    requires forall i :: k < i < |sdfs| ==> CsvPath(sdfs[i]) != csv
    ensures csv in ParsedAll(files, sdfs, supply)
    ensures ParsedAll(files, sdfs, supply)[csv] == Text(ScoreLines(supply(sdfs[k])))
  {
    PrefixWrites(files, sdfs, supply, k, sdfs[..k + 1]);
    KeepsAfter(files, sdfs, supply, k + 1, csv);
  }

  /** After the first k + 1 files, the k-th one's CSV holds its lines. */
  lemma PrefixWrites(files: map<Path, Content>, sdfs: seq<Path>, supply: Path -> seq<Option<Record>>, k: nat, upto: seq<Path>)
    requires forall i :: 0 <= i < |sdfs| ==> sdfs[i].name != ""
    requires k < |sdfs| && upto == sdfs[..k + 1] && ScoreLines(supply(sdfs[k])) != []
    ensures forall i :: 0 <= i < |upto| ==> upto[i].name != ""
    ensures CsvPath(sdfs[k]) in ParsedAll(files, upto, supply)
    ensures ParsedAll(files, upto, supply)[CsvPath(sdfs[k])] == Text(ScoreLines(supply(sdfs[k])))
  {
    assert |upto| == k + 1 && upto[k] == sdfs[k];
    assert forall i :: 0 <= i < |upto| ==> upto[i] == sdfs[i];
    LastWrites(files, upto, supply);
  }

  /** A path none of the files from the m-th on writes keeps what it held after the first m. */
  lemma {:induction false} KeepsAfter(files: map<Path, Content>, sdfs: seq<Path>, supply: Path -> seq<Option<Record>>, m: nat, csv: Path)
    requires forall i :: 0 <= i < |sdfs| ==> sdfs[i].name != ""
    requires m <= |sdfs| && csv in ParsedAll(files, sdfs[..m], supply)
    requires forall i :: m <= i < |sdfs| ==> CsvPath(sdfs[i]) != csv
    ensures csv in ParsedAll(files, sdfs, supply)
    ensures ParsedAll(files, sdfs, supply)[csv] == ParsedAll(files, sdfs[..m], supply)[csv]
    decreases |sdfs|
  {
    if m < |sdfs| {
      var init := sdfs[..|sdfs| - 1];
      assert init[..m] == sdfs[..m];
      assert forall i :: 0 <= i < |init| ==> init[i] == sdfs[i];
      KeepsAfter(files, init, supply, m, csv);
      LastKeeps(files, sdfs, supply, csv);
    } else {
      assert sdfs[..m] == sdfs;
    }
  }

  /** The last file's `parse` leaves every other path as the earlier ones left it. */
  lemma LastKeeps(files: map<Path, Content>, sdfs: seq<Path>, supply: Path -> seq<Option<Record>>, p: Path)
    requires sdfs != [] && forall i :: 0 <= i < |sdfs| ==> sdfs[i].name != ""
    requires p != CsvPath(sdfs[|sdfs| - 1]) && p in ParsedAll(files, sdfs[..|sdfs| - 1], supply)
    ensures p in ParsedAll(files, sdfs, supply)
    ensures ParsedAll(files, sdfs, supply)[p] == ParsedAll(files, sdfs[..|sdfs| - 1], supply)[p]
  {
    ParsedAllLast(files, sdfs, supply);
  }

  /** The last file's CSV holds its lines, if it had any. */
  lemma LastWrites(files: map<Path, Content>, sdfs: seq<Path>, supply: Path -> seq<Option<Record>>)
    requires sdfs != [] && forall i :: 0 <= i < |sdfs| ==> sdfs[i].name != ""
    requires ScoreLines(supply(sdfs[|sdfs| - 1])) != []
    ensures var csv := CsvPath(sdfs[|sdfs| - 1]);
      csv in ParsedAll(files, sdfs, supply) &&
      ParsedAll(files, sdfs, supply)[csv] == Text(ScoreLines(supply(sdfs[|sdfs| - 1])))
  {
    ParsedAllLast(files, sdfs, supply);
  }

  lemma ParsedAllLast(files: map<Path, Content>, sdfs: seq<Path>, supply: Path -> seq<Option<Record>>)
    requires sdfs != [] && forall i :: 0 <= i < |sdfs| ==> sdfs[i].name != ""
    ensures ParsedAll(files, sdfs, supply)
      == ParseEffect(ParsedAll(files, sdfs[..|sdfs| - 1], supply), sdfs[|sdfs| - 1], supply(sdfs[|sdfs| - 1]))
  {
  }

  lemma DockingNamed(sdfs: seq<Path>)
    requires forall i :: 0 <= i < |sdfs| ==> EndsWith(sdfs[i].name, DockingTail)
    ensures forall i :: 0 <= i < |sdfs| ==> sdfs[i].name != ""
  {
  }
}
