/**
 * How the stages hand files to each other: the names one stage writes are
 * the names the next one looks for.
 */
module Pipeline {
  import opened Paths
  import opened Files
  import Planner
  import Docking
  import Scoring

  /**
   * The consolidated file the docking stage writes for a batch is one the
   * scoring stage parses, and the CSV scoring derives from it sits beside
   * it as `<batch stem>.docking.csv`.
   */
  lemma DockingFeedsScoring(batch: Path)
    requires batch.name != ""
    ensures var docked := Docking.ConsolidatedPath(batch);
      EndsWith(docked.name, Scoring.DockingTail) &&
      docked in Glob([docked], Scoring.DockingTail) &&
      Scoring.CsvPath(docked) == Path(batch.dir, Stem(batch.name) + ".docking.csv")
  {
    var docked := Docking.ConsolidatedPath(batch);
    var stem := Stem(batch.name);
    assert docked.name == stem + Scoring.DockingTail;
    assert Stem(docked.name) == stem + ".docking" by {
      Scoring.DockingName(docked.name);
      assert docked.name[..|docked.name| - 4] == stem + ".docking";
    }
  }

  /**
   * The training step of the planned script reads the table whose existence
   * makes the scoring stage skip, and no per-file CSV that scoring's `parse`
   * writes in that directory is that table.
   */
  lemma PlanFeedsTraining(args: Planner.Args, envDir: string)
    requires Planner.Plan(args, envDir).Ok?
    ensures var s := Planner.Plan(args, envDir).value.script;
      var wd := Planner.WorkDir(args.scratch, args.outdir.value);
      s[4] == Planner.Score(wd, true) &&
      s[5].Train? && s[5].table == Join(wd, Scoring.TrainingTable) &&
      forall sdf: Path :: EndsWith(sdf.name, Scoring.DockingTail) ==> Scoring.CsvPath(sdf) != s[5].table
  {
    Planner.ScriptChaining(args, envDir);
    forall sdf: Path | EndsWith(sdf.name, Scoring.DockingTail)
      ensures Scoring.CsvPath(sdf).name != Scoring.TrainingTable
    {
      Scoring.CsvNotDocking(sdf);
    }
  }
}
