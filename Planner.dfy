/**
 * The job planner (`active-learning` command): from the queue label it
 * derives how many tasks run on each node, clamps the allocation in
 * debug mode, and composes the one shell script that runs the stages in
 * dependency order, which it hands to the cluster submission service
 * together with the job description.
 */
module Planner {
  import opened Paths
  import opened Files

  /** The values of the command line after parsing, defaults applied. */
  datatype Args = Args(
    library: string,
    receptor: string,
    percent: real,
    center: Option<seq<real>>,   // `--center`, no default
    size: seq<int>,              // `--size`, default 15 15 15
    outdir: Option<Path>,        // `--outdir`, no default
    scratch: string,
    extension: string,
    nodes: int,                  // default 8
    project: Option<string>,
    queue: string,               // default "gpu-a100"
    email: Option<string>,
    emailType: MailType,         // default ALL
    delay: int,
    debug: bool)

  /** The e-mail events argparse lets through. */
  datatype MailType = NONE | BEGIN | END | FAIL | REQUEUE | ALL

  datatype WallTime = WallTime(days: nat, hours: nat, minutes: nat)

  /** What is handed to the submission service besides the script. */
  datatype JobSpec = JobSpec(
    nodes: int,
    ntasks: int,
    ntasksPerNode: nat,
    jobName: string,
    wallTime: WallTime,
    partition: string,
    email: Option<string>,
    mailType: MailType,
    log: string,
    script: Path,
    delay: int,
    project: Option<string>)

  /** One step of the generated script, by the arguments it passes. */
  datatype Command =
    | Activate(envDir: string)
    | ChangeDir(dir: Path)
    | Sample(library: string, percent: real, outdir: string, extension: string,
             receptor: string, center: seq<real>, size: seq<int>, debug: bool)
    | LaunchDocking(workdir: string, jobFile: Path)
    | Score(wd: string, debug: bool)
    | Train(table: Path, modelDir: Path, debug: bool)
    | Evaluate(wd: string, modelDir: Path, debug: bool)

  datatype Job = Job(spec: JobSpec, script: seq<Command>)

  /** The program each step runs. */
  function Program(c: Command): string
  {
    match c
    case Activate(_) => "source"
    case ChangeDir(_) => "cd"
    case Sample(_, _, _, _, _, _, _, _) => "sampling"
    case LaunchDocking(_, _) => "paramrun"
    case Score(_, _) => "scoring"
    case Train(_, _, _) => "modeling"
    case Evaluate(_, _, _) => "evaluating"
  }

  function Programs(script: seq<Command>): (names: seq<string>)
    ensures |names| == |script|
    ensures forall i :: 0 <= i < |script| ==> names[i] == Program(script[i])
  {
    if script == [] then [] else Programs(script[..|script| - 1]) + [Program(script[|script| - 1])]
  }

  /** Queue-name fragments and the tasks per node they give, in the order they are tried. */
  const QueueLayout: seq<(string, nat)> := [("a100", 3), ("h100", 2), ("rtx", 4)]

  /** The i-th fragment of the table occurs in the label and no earlier one does. */
  predicate DecidesAt(table: seq<(string, nat)>, queue: string, i: nat)
    requires i < |table|
  {
    Contains(queue, table[i].0) && forall j :: 0 <= j < i ==> !Contains(queue, table[j].0)
  }

  /** The ordered-table reading of the queue rule: the first fragment found in the label decides. */
  function FirstMatch(table: seq<(string, nat)>, queue: string): (n: Option<nat>)
    ensures n.None? <==> forall i :: 0 <= i < |table| ==> !Contains(queue, table[i].0)
    ensures n.Some? ==> exists i :: 0 <= i < |table| && DecidesAt(table, queue, i) && n.value == table[i].1
  {
    if table == [] then None
    else if Contains(queue, table[0].0) then
      assert DecidesAt(table, queue, 0);
      Some(table[0].1)
    else
      var rest := FirstMatch(table[1..], queue);
      assert rest.Some? ==> exists i :: 0 <= i < |table| && DecidesAt(table, queue, i) && rest.value == table[i].1 by {
        if rest.Some? {
          var i :| 0 <= i < |table[1..]| && DecidesAt(table[1..], queue, i) && rest.value == table[1..][i].1;
          assert forall j :: 1 <= j < i + 1 ==> table[j] == table[1..][j - 1];
          assert DecidesAt(table, queue, i + 1);
        }
      }
      rest
  }

  /** Tasks per node for a queue label; None stands for the ValueError raised on any other label. */
  function TasksPerNode(queue: string): (n: Option<nat>)
    ensures n.Some? ==> 2 <= n.value <= 4
  {
    if Contains(queue, "a100") then Some(3)
    else if Contains(queue, "h100") then Some(2)
    else if Contains(queue, "rtx") then Some(4)
    else None
  }

  /** The scratch work directory every stage of the script runs in: `<scratch>/<name of outdir>`. */
  function WorkDir(scratch: string, outdir: Path): (wd: string)
    ensures scratch < wd && wd[|scratch|] == '/' && EndsWith(wd, outdir.name)
    ensures |wd| == |scratch| + 1 + |outdir.name|
  {
    scratch + "/" + outdir.name
  }

  /** The stages of the script, in the order they run. */
  function Script(args: Args, envDir: string, outdir: Path, wd: string, center: seq<real>): (steps: seq<Command>)
    ensures |steps| == 7
  {
    [ Activate(envDir),
      ChangeDir(outdir),
      Sample(args.library, args.percent, wd, args.extension, args.receptor, center, args.size, true),
      LaunchDocking(wd, Join(wd, "docking.commands.txt")),
      Score(wd, true),
      Train(Join(wd, "train.smiles.score.csv"), Join(wd, "model"), true),
      Evaluate(wd, Join(wd, "model"), true) ]
  }

  /**
   * The planner's `main`: the job it submits, or the exception that stops
   * it first. Missing `--outdir` fails when the scratch directory is named,
   * an unknown queue next, then a center or size that is not three values.
   * `envDir` is the directory of the Python interpreter found on PATH.
   */
  function Plan(args: Args, envDir: string): (r: Result<Job>)
    ensures r.Ok? <==>
      args.outdir.Some? && TasksPerNode(args.queue).Some? &&
      args.center.Some? && |args.center.value| == 3 && |args.size| == 3
    ensures args.outdir.Some? && TasksPerNode(args.queue).None? ==>
      r == Err(ValueError("Invalid queue " + args.queue))
    ensures r.Ok? ==>
      var spec := r.value.spec;
      spec.ntasksPerNode == TasksPerNode(args.queue).value &&
      spec.nodes == (if args.debug then 2 else args.nodes) &&
      spec.ntasks == spec.nodes * spec.ntasksPerNode &&
      spec.partition == args.queue &&
      spec.wallTime == (if args.debug then WallTime(0, 1, 59) else WallTime(1, 23, 59)) &&
      spec.script == Join(args.outdir.value.dir + "/" + args.outdir.value.name, "submit.sh")
  {
    if args.outdir.None? then
      Err(AttributeError("name"))
    else
      var outdir := args.outdir.value;
      var wd := WorkDir(args.scratch, outdir);
      var nodes := if args.debug then 2 else args.nodes;
      match TasksPerNode(args.queue)
      case None => Err(ValueError("Invalid queue " + args.queue))
      case Some(perNode) =>
        if args.center.None? then
          Err(TypeError("cannot unpack non-iterable NoneType object"))
        else if |args.center.value| != 3 then
          Err(ValueError("center must unpack to three values"))
        else if |args.size| != 3 then
          Err(ValueError("size must unpack to three values"))
        else
          var spec := JobSpec(
            nodes, nodes * perNode, perNode, "ACL",
            if args.debug then WallTime(0, 1, 59) else WallTime(1, 23, 59),
            args.queue, args.email, args.emailType, "learning.log",
            Join(Show(outdir), "submit.sh"), args.delay, args.project);
          Ok(Job(spec, Script(args, envDir, outdir, wd, args.center.value)))
  }

  /** The if/elif chain is the ordered lookup in QueueLayout. */
  lemma QueueChainIsTable(queue: string)
    ensures TasksPerNode(queue) == FirstMatch(QueueLayout, queue)
  {
    var t1, t2, t3 := QueueLayout[1..], QueueLayout[2..], QueueLayout[3..];
    assert t1 == [("h100", 2), ("rtx", 4)] && t1[1..] == t2;
    assert t2 == [("rtx", 4)] && t2[1..] == t3 && t3 == [];
    assert FirstMatch(t3, queue) == None;
    assert FirstMatch(t2, queue) == if Contains(queue, "rtx") then Some(4) else None;
    assert FirstMatch(t1, queue) == if Contains(queue, "h100") then Some(2) else FirstMatch(t2, queue);
  }

  /**
   * The queue rule in full: "a100" is tried first, then "h100", then "rtx";
   * the first fragment found in the label decides, and a label with none of
   * them is refused.
   */
  lemma QueuePriority(queue: string)
    ensures Contains(queue, "a100") ==> TasksPerNode(queue) == Some(3)
    ensures !Contains(queue, "a100") && Contains(queue, "h100") ==> TasksPerNode(queue) == Some(2)
    ensures !Contains(queue, "a100") && !Contains(queue, "h100") && Contains(queue, "rtx") ==> TasksPerNode(queue) == Some(4)
    ensures TasksPerNode(queue).None? <==> !Contains(queue, "a100") && !Contains(queue, "h100") && !Contains(queue, "rtx")
  {
  }

  /** "a100" is tried first, so a label naming both "a100" and "rtx" still gets 3 tasks per node. */
  lemma A100TakesPriority()
    ensures TasksPerNode("gpu-a100-rtx") == Some(3)
    ensures TasksPerNode("gpu-h100") == Some(2)
    ensures TasksPerNode("rtx") == Some(4)
  {
    assert OccursAt("gpu-a100-rtx", "a100", 4);
    assert OccursAt("gpu-h100", "h100", 4);
    assert OccursAt("rtx", "rtx", 0);
    Absent("gpu-h100", "a100", 0);
  }

  /** The script runs exactly these seven steps in this order; the top-selection stage is not among them. */
  lemma {:induction false} ScriptOrder(args: Args, envDir: string)
    requires Plan(args, envDir).Ok?
    ensures Programs(Plan(args, envDir).value.script) ==
      ["source", "cd", "sampling", "paramrun", "scoring", "modeling", "evaluating"]
    ensures "topping" !in Programs(Plan(args, envDir).value.script)
  {
    var s := Plan(args, envDir).value.script;
    var names := Programs(s);
    assert |names| == 7;
    assert names[0] == "source" && names[1] == "cd" && names[2] == "sampling";
    assert names[3] == "paramrun" && names[4] == "scoring" && names[5] == "modeling";
    assert names[6] == "evaluating";
  }

  /**
   * The steps are chained through one work directory: the launcher reads
   * `<wd>/docking.commands.txt`, training reads the table the scoring
   * stage writes in `<wd>`, and evaluation reads the model that training
   * writes; every stage is started in debug mode.
   */
  lemma ScriptChaining(args: Args, envDir: string)
    requires Plan(args, envDir).Ok?
    ensures var s := Plan(args, envDir).value.script;
      var wd := WorkDir(args.scratch, args.outdir.value);
      |s| == 7 &&
      s[2].Sample? && s[2].outdir == wd && s[2].debug &&
      s[3].LaunchDocking? && s[3].jobFile == Path(wd, "docking.commands.txt") &&
      s[4].Score? && s[4].wd == wd &&
      s[5].Train? && s[5].table == Path(wd, "train.smiles.score.csv") &&
      s[6].Evaluate? && s[6].wd == wd && s[6].modelDir == s[5].modelDir
  {
  }

  /** With the defaults (`gpu-a100`, 8 nodes) and no debug flag, 24 tasks are requested over 8 nodes for 1 day 23:59. */
  lemma DefaultLayout(args: Args, envDir: string)
    requires args.queue == "gpu-a100" && args.nodes == 8 && !args.debug
    requires args.outdir.Some? && args.center.Some? && |args.center.value| == 3 && |args.size| == 3
    ensures Plan(args, envDir).Ok?
    ensures Plan(args, envDir).value.spec.ntasks == 24
    ensures Plan(args, envDir).value.spec.wallTime == WallTime(1, 23, 59)
  {
    assert OccursAt("gpu-a100", "a100", 4);
  }

  /**
   * In debug mode the requested node count is ignored: 2 nodes for 1:59,
   * so 6 tasks on any a100 queue, 4 on an h100 one and 8 on an rtx one.
   */
  lemma DebugClamp(args: Args, envDir: string)
    requires args.debug && TasksPerNode(args.queue).Some?
    requires args.outdir.Some? && args.center.Some? && |args.center.value| == 3 && |args.size| == 3
    ensures Plan(args, envDir).Ok?
    ensures Plan(args, envDir).value.spec.nodes == 2
    ensures Plan(args, envDir).value.spec.wallTime == WallTime(0, 1, 59)
    ensures Contains(args.queue, "a100") ==> Plan(args, envDir).value.spec.ntasks == 6
    ensures !Contains(args.queue, "a100") && Contains(args.queue, "h100") ==> Plan(args, envDir).value.spec.ntasks == 4
    ensures !Contains(args.queue, "a100") && !Contains(args.queue, "h100") ==> Plan(args, envDir).value.spec.ntasks == 8
  {
    QueuePriority(args.queue);
  }
}
