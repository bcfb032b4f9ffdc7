/**
 * The screenshot plugin: a shadow step counter and a ledger of plan records,
 * kept beside a directory tree of per-step artifacts.
 *
 * The filesystem is a `Disk` object holding a set of directories and a map
 * from file paths to contents. Every clock reading (`datetime.now()`) is a
 * string parameter of the call that reads the clock, and base64 decoding is
 * a partial function passed in by the caller.
 */
module ScreenshotService {
  import opened Options
  import opened Paths
  import opened Artifacts

  /** The part of the filesystem the plugin touches. */
  class Disk {
    var dirs: set<Path>
    var files: map<Path, Content>

    constructor (dirs0: set<Path>, files0: map<Path, Content>)
      ensures dirs == dirs0 && files == files0
    {
      dirs := dirs0;
      files := files0;
    }

    /** `Path(p).mkdir(parents=True, exist_ok=True)`: creating an existing directory changes nothing. */
    method MakeDirs(p: Path)
      modifies this
      ensures dirs == old(dirs) + {p}
      ensures files == old(files)
    {
      dirs := dirs + {p};
    }

    /** Writes `content` to `os.path.join(dir, name)`, replacing what was there; `open` needs the directory. */
    method WriteFile(dir: Path, name: Path, content: Content)
      requires dir in dirs
      modifies this
      ensures files == old(files)[Join(dir, name) := content]
      ensures dirs == old(dirs)
    {
      files := files[Join(dir, name) := content];
    }
  }

  /** The step a save targets: the explicit argument, or the shadow counter when none is given. */
  function ResolveStep(stepNumber: Option<int>, current: int): (step: int)
    ensures stepNumber.Some? ==> step == stepNumber.value
    ensures stepNumber.None? ==> step == current
  {
    match stepNumber
    case Some(n) => n
    case None => current
  }

  /** The files after `save_screenshot` wrote `shot` (if any) to `path`. */
  function PutScreenshot(files: map<Path, Content>, path: Path, shot: Option<seq<Byte>>): (r: map<Path, Content>)
    ensures r.Keys == files.Keys + (if shot.Some? then {path} else {})
    ensures forall p :: p in files && p != path ==> r[p] == files[p]
    ensures shot.Some? ==> r[path] == Image(shot.value)
    ensures shot.None? ==> r == files
  {
    match shot
    case Some(bytes) => files[path := Image(bytes)]
    case None => files
  }

  class ScreenshotPlugin {
    const disk: Disk
    const baseDir: Path
    const savePlans: bool
    var currentStep: int
    var plans: seq<PlanRecord>
    /** The directory-creation timestamp under which each ledger record was written. */
    ghost var planStamps: seq<string>

    /**
     * The base directory exists; the ledger stays empty while plan saving is
     * off; and every ledger record's step directory exists on disk.
     */
    ghost predicate Valid()
      reads this, disk
    {
      baseDir in disk.dirs &&
      (!savePlans ==> plans == []) &&
      |planStamps| == |plans| &&
      forall i {:trigger ExecuteDir(baseDir, plans[i].stepNumber, planStamps[i])} ::
        0 <= i < |plans| ==> ExecuteDir(baseDir, plans[i].stepNumber, planStamps[i]) in disk.dirs
    }

    constructor (disk: Disk, baseDir: Path := "screenshots", savePlans: bool := true)
      modifies disk
      ensures Valid()
      ensures this.disk == disk && this.baseDir == baseDir && this.savePlans == savePlans
      ensures currentStep == 0 && plans == []
      ensures disk.dirs == old(disk.dirs) + {baseDir} && disk.files == old(disk.files)
    {
      this.disk := disk;
      this.baseDir := baseDir;
      this.savePlans := savePlans;
      currentStep := 0;
      plans := [];
      planStamps := [];
      new;
      disk.MakeDirs(baseDir);
    }

    /** `_create_execute_dir`: names the step directory from the clock reading `stamp` and creates it. */
    method CreateExecuteDir(stepNumber: int, stamp: string) returns (dirPath: Path)
      requires Valid()
      modifies disk
      ensures Valid()
      ensures dirPath == ExecuteDir(baseDir, stepNumber, stamp)
      ensures disk.dirs == old(disk.dirs) + {dirPath} && disk.files == old(disk.files)
    {
      dirPath := Join(baseDir, ExecuteDirName(stepNumber, stamp));
      disk.MakeDirs(dirPath);
    }

    /**
     * `save_screenshot`: writes the decoded screenshot to `screenshot.png` in
     * the target step's directory. With no screenshot, or one that does not
     * decode, no file is written; the path is returned in every case.
     */
    method SaveScreenshot(state: BrowserState, decode: Base64Decoder, dirStamp: string,
                          stepNumber: Option<int> := None) returns (path: Path)
      requires Valid()
      modifies disk
      ensures Valid()
      ensures var dir := ExecuteDir(baseDir, ResolveStep(stepNumber, currentStep), dirStamp);
        path == Join(dir, ScreenshotName) &&
        disk.dirs == old(disk.dirs) + {dir} &&
        disk.files == PutScreenshot(old(disk.files), path, ScreenshotBytes(state, decode))
    {
      var step := ResolveStep(stepNumber, currentStep);
      var executeDir := CreateExecuteDir(step, dirStamp);
      path := Join(executeDir, ScreenshotName);
      if state.screenshot.Some? && state.screenshot.value != "" {
        var decoded := decode(state.screenshot.value);
        if decoded.Some? {
          disk.WriteFile(executeDir, ScreenshotName, Image(decoded.value));
        }
        // otherwise the decoding error is logged and swallowed
      }
      // otherwise a warning is logged
    }

    /**
     * `save_plan`: with plan saving off, returns "" and changes nothing.
     * Otherwise appends one record for the target step to the ledger and
     * writes it to `plan.json` in that step's directory. `dirStamp` is the
     * clock reading taken when the directory is created, `time` the later
     * one recorded in the plan.
     */
    method SavePlan(output: AgentOutput, dirStamp: string, time: string,
                    stepNumber: Option<int> := None) returns (path: Path)
      requires Valid()
      modifies this`plans, this`planStamps, disk
      ensures Valid()
      ensures !savePlans ==>
        path == "" && plans == old(plans) && planStamps == old(planStamps) &&
        disk.dirs == old(disk.dirs) && disk.files == old(disk.files)
      ensures savePlans ==>
        var step := ResolveStep(stepNumber, currentStep);
        var dir := ExecuteDir(baseDir, step, dirStamp);
        path == Join(dir, PlanName) &&
        plans == old(plans) + [NewPlanRecord(output, step, time)] &&
        planStamps == old(planStamps) + [dirStamp] &&
        disk.dirs == old(disk.dirs) + {dir} &&
        disk.files == old(disk.files)[path := PlanDocument(NewPlanRecord(output, step, time))]
    {
      if !savePlans {
        return "";
      }
      var step := ResolveStep(stepNumber, currentStep);
      var executeDir := CreateExecuteDir(step, dirStamp);
      var planData := NewPlanRecord(output, step, time);
      plans := plans + [planData];
      planStamps := planStamps + [dirStamp];
      path := Join(executeDir, PlanName);
      disk.WriteFile(executeDir, PlanName, PlanDocument(planData));
    }

    /**
     * `save_results`: writes one entry per action result, in order, to
     * `results.json` in the target step's directory.
     */
    method SaveResults(results: seq<ActionResult>, dirStamp: string,
                       stepNumber: Option<int> := None) returns (path: Path)
      requires Valid()
      modifies disk
      ensures Valid()
      ensures var dir := ExecuteDir(baseDir, ResolveStep(stepNumber, currentStep), dirStamp);
        path == Join(dir, ResultsName) &&
        disk.dirs == old(disk.dirs) + {dir} &&
        disk.files == old(disk.files)[path := ResultsDocument(ResultsData(results))]
    {
      var step := ResolveStep(stepNumber, currentStep);
      var executeDir := CreateExecuteDir(step, dirStamp);
      var resultsData := ResultsData(results);
      path := Join(executeDir, ResultsName);
      disk.WriteFile(executeDir, ResultsName, ResultsDocument(resultsData));
    }

    /**
     * `handle_step`: the host has already advanced its own counter, so the
     * artifacts belong to step `stepNumber - 1`. The counter is set to that
     * step, then the screenshot and (if enabled) the plan are saved under it.
     */
    method HandleStep(state: BrowserState, output: AgentOutput, stepNumber: int,
                      decode: Base64Decoder, shotStamp: string, planStamp: string, time: string)
      requires Valid()
      modifies this, disk
      ensures Valid()
      ensures currentStep == stepNumber - 1
      ensures !savePlans ==>
        var shotDir := ExecuteDir(baseDir, stepNumber - 1, shotStamp);
        plans == old(plans) && planStamps == old(planStamps) &&
        disk.dirs == old(disk.dirs) + {shotDir} &&
        disk.files == PutScreenshot(old(disk.files), Join(shotDir, ScreenshotName), ScreenshotBytes(state, decode))
      ensures savePlans ==>
        var shotDir := ExecuteDir(baseDir, stepNumber - 1, shotStamp);
        var planDir := ExecuteDir(baseDir, stepNumber - 1, planStamp);
        var plan := NewPlanRecord(output, stepNumber - 1, time);
        plans == old(plans) + [plan] && planStamps == old(planStamps) + [planStamp] &&
        disk.dirs == old(disk.dirs) + {shotDir, planDir} &&
        disk.files == PutScreenshot(old(disk.files), Join(shotDir, ScreenshotName), ScreenshotBytes(state, decode))
                        [Join(planDir, PlanName) := PlanDocument(plan)]
    {
      var actualStep := stepNumber - 1;
      currentStep := actualStep;
      var _ := SaveScreenshot(state, decode, shotStamp, Some(actualStep));
      var _ := SavePlan(output, planStamp, time, Some(actualStep));
    }

    /**
     * `handle_execute`: saves the screenshot and the results under the
     * current step, and only then advances the counter by one.
     */
    method HandleExecute(state: BrowserState, results: seq<ActionResult>,
                         decode: Base64Decoder, shotStamp: string, resultsStamp: string)
      requires Valid()
      modifies this`currentStep, disk
      ensures Valid()
      ensures currentStep == old(currentStep) + 1
      ensures var shotDir := ExecuteDir(baseDir, old(currentStep), shotStamp);
        var resultsDir := ExecuteDir(baseDir, old(currentStep), resultsStamp);
        var shotFiles := PutScreenshot(old(disk.files), Join(shotDir, ScreenshotName), ScreenshotBytes(state, decode));
        disk.dirs == old(disk.dirs) + {shotDir, resultsDir} &&
        disk.files == shotFiles[Join(resultsDir, ResultsName) := ResultsDocument(ResultsData(results))]
    {
      var _ := SaveScreenshot(state, decode, shotStamp);
      var _ := SaveResults(results, resultsStamp);
      currentStep := currentStep + 1;
    }

    /** `handle_done`: the history is not read; the ledger is flushed. */
    method HandleDone(history: seq<map<string, string>>, stamp: string)
      requires Valid()
      modifies disk
      ensures Valid()
      ensures disk.dirs == old(disk.dirs)
      ensures disk.files == if savePlans && plans != []
        then old(disk.files)[Join(baseDir, AllPlansName(stamp)) := PlansDocument(plans)]
        else old(disk.files)
    {
      SaveAllPlans(stamp);
    }

    /**
     * `save_all_plans`: with plan saving on and a non-empty ledger, writes
     * the whole ledger, in order, to `all_plans_{stamp}.json` at the root of
     * the base directory; otherwise writes nothing. The ledger is kept.
     */
    method SaveAllPlans(stamp: string)
      requires Valid()
      modifies disk
      ensures Valid()
      ensures disk.dirs == old(disk.dirs)
      ensures disk.files == if savePlans && plans != []
        then old(disk.files)[Join(baseDir, AllPlansName(stamp)) := PlansDocument(plans)]
        else old(disk.files)
    {
      if !savePlans || plans == [] {
        return;
      }
      disk.WriteFile(baseDir, AllPlansName(stamp), PlansDocument(plans));
    }
  }
  /**
   * The two directory creations of one `handle_step` (screenshot, then plan)
   * read the clock separately: both artifacts land in one directory exactly
   * when the two readings format to the same second.
   */
  lemma HandleStepSharesDirectory(base: Path, stepNumber: int, shotStamp: string, planStamp: string)
    ensures ExecuteDir(base, stepNumber - 1, shotStamp) == ExecuteDir(base, stepNumber - 1, planStamp)
        <==> shotStamp == planStamp
  {
    ExecuteDirInjective(base, stepNumber - 1, shotStamp, stepNumber - 1, planStamp);
  }

  /**
   * A host step 0 is recorded as step -1, whose directory name carries the
   * sign inside the width: `execute_-01_...`.
   */
  lemma HostStepZeroDirName(stamp: string)
    ensures ExecuteDirName(0 - 1, stamp) == "execute_-01_" + stamp
  {
  }

  /** The files after a step with plan saving on: its screenshot, if decoded, and its plan. */
  ghost function StepFiles(files: map<Path, Content>, base: Path, step: int, shotStamp: string,
                           shot: Option<seq<Byte>>, planStamp: string, plan: PlanRecord): map<Path, Content>
  {
    PutScreenshot(files, Join(ExecuteDir(base, step, shotStamp), ScreenshotName), shot)
      [Join(ExecuteDir(base, step, planStamp), PlanName) := PlanDocument(plan)]
  }

  /** The plan file of the j-th step of a run holds the j-th ledger record. */
  ghost predicate PlanFileAt(files: map<Path, Content>, base: Path, first: int,
                             stamps: seq<string>, plans: seq<PlanRecord>, j: int)
  {
    0 <= j < |stamps| && j < |plans| &&
    RunPlanPath(base, first, stamps, j) in files &&
    files[RunPlanPath(base, first, stamps, j)] == PlanDocument(plans[j])
  }

  /**
   * The plan file of every step of a run holds that step's ledger record:
   * the j-th step is host step first + j, recorded as step first - 1 + j.
   */
  ghost predicate PlanFilesHold(files: map<Path, Content>, base: Path, first: int,
                                stamps: seq<string>, plans: seq<PlanRecord>)
  {
    |stamps| == |plans| &&
    forall j :: 0 <= j < |plans| ==> PlanFileAt(files, base, first, stamps, plans, j)
  }

  /**
   * The plan files already written survive the next step of the run, which
   * writes its screenshot and its plan at paths of its own and adds its
   * plan file.
   */
  lemma PlanFilesSurviveStep(files: map<Path, Content>, base: Path, first: int,
                             stamps: seq<string>, plans: seq<PlanRecord>, step: int,
                             shotStamp: string, shot: Option<seq<Byte>>, planStamp: string, plan: PlanRecord)
    requires PlanFilesHold(files, base, first, stamps, plans)
    requires step == first - 1 + |stamps|
    requires AllNoSeparator(stamps) && NoSeparator(shotStamp) && NoSeparator(planStamp)
    ensures PlanFilesHold(
      StepFiles(files, base, step, shotStamp, shot, planStamp, plan),
      base, first, stamps + [planStamp], plans + [plan])
  {
    var after := StepFiles(files, base, step, shotStamp, shot, planStamp, plan);
    PlanFilesKept(files, base, first, stamps, plans, step, shotStamp, shot, planStamp, plan);
    PlanFileAdded(files, base, first, stamps, plans, step, shotStamp, shot, planStamp, plan);
    forall j | 0 <= j < |plans| + 1
      ensures PlanFileAt(after, base, first, stamps + [planStamp], plans + [plan], j)
    {
      if j == |plans| {
        assert j == |stamps|;
      }
    }
  }

  /** Every plan file of the run so far survives the saves of the next step. */
  lemma PlanFilesKept(files: map<Path, Content>, base: Path, first: int,
                      stamps: seq<string>, plans: seq<PlanRecord>, step: int,
                      shotStamp: string, shot: Option<seq<Byte>>, planStamp: string, plan: PlanRecord)
    requires PlanFilesHold(files, base, first, stamps, plans)
    requires step == first - 1 + |stamps|
    requires AllNoSeparator(stamps) && NoSeparator(shotStamp) && NoSeparator(planStamp)
    ensures forall j :: 0 <= j < |plans| ==> PlanFileAt(
      StepFiles(files, base, step, shotStamp, shot, planStamp, plan),
      base, first, stamps + [planStamp], plans + [plan], j)
  {
    forall j | 0 <= j < |plans| {
      PlanFileKept(files, base, first, stamps, plans, j, step, shotStamp, shot, planStamp, plan);
    }
  }

  /** The plan file of an earlier step of the run survives the saves of the next step. */
  lemma PlanFileKept(files: map<Path, Content>, base: Path, first: int, stamps: seq<string>,
                     plans: seq<PlanRecord>, j: int, step: int,
                     shotStamp: string, shot: Option<seq<Byte>>, planStamp: string, plan: PlanRecord)
    requires PlanFileAt(files, base, first, stamps, plans, j)
    requires step == first - 1 + |stamps|
    requires NoSeparator(stamps[j]) && NoSeparator(shotStamp) && NoSeparator(planStamp)
    ensures PlanFileAt(
      StepFiles(files, base, step, shotStamp, shot, planStamp, plan),
      base, first, stamps + [planStamp], plans + [plan], j)
  {
    var q := Join(ExecuteDir(base, first - 1 + j, stamps[j]), PlanName);
    var shotPath := Join(ExecuteDir(base, step, shotStamp), ScreenshotName);
    var planPath := Join(ExecuteDir(base, step, planStamp), PlanName);
    EarlierPlanPathAvoided(base, first - 1 + j, stamps[j], step, shotStamp, planStamp);
    KeptByStep(files, shotPath, shot, planPath, PlanDocument(plan), q);
    assert (stamps + [planStamp])[j] == stamps[j] && (plans + [plan])[j] == plans[j];
  }

  /** The plan file of an earlier step is neither of the two paths a later step writes. */
  lemma EarlierPlanPathAvoided(base: Path, earlier: int, stamp: string, step: int, shotStamp: string, planStamp: string)
    requires earlier != step
    requires NoSeparator(stamp) && NoSeparator(shotStamp) && NoSeparator(planStamp)
    ensures Join(ExecuteDir(base, earlier, stamp), PlanName) != Join(ExecuteDir(base, step, shotStamp), ScreenshotName)
    ensures Join(ExecuteDir(base, earlier, stamp), PlanName) != Join(ExecuteDir(base, step, planStamp), PlanName)
  {
    ArtifactPathsOfStepsDiffer(base, earlier, stamp, PlanName, step, shotStamp, ScreenshotName);
    ArtifactPathsOfStepsDiffer(base, earlier, stamp, PlanName, step, planStamp, PlanName);
  }

  /** The next step's own plan file holds its ledger record. */
  lemma PlanFileAdded(files: map<Path, Content>, base: Path, first: int, stamps: seq<string>,
                      plans: seq<PlanRecord>, step: int,
                      shotStamp: string, shot: Option<seq<Byte>>, planStamp: string, plan: PlanRecord)
    requires |stamps| == |plans| && step == first - 1 + |stamps|
    ensures PlanFileAt(
      StepFiles(files, base, step, shotStamp, shot, planStamp, plan),
      base, first, stamps + [planStamp], plans + [plan], |stamps|)
  {
    var after := StepFiles(files, base, step, shotStamp, shot, planStamp, plan);
    var planPath := Join(ExecuteDir(base, step, planStamp), PlanName);
    assert planPath in after && after[planPath] == PlanDocument(plan);
    assert (stamps + [planStamp])[|stamps|] == planStamp && (plans + [plan])[|plans|] == plan;
  }

  /** A file at neither path a step writes keeps its content. */
  lemma KeptByStep(files: map<Path, Content>, shotPath: Path, shot: Option<seq<Byte>>,
                   planPath: Path, doc: Content, q: Path)
    requires q in files && q != shotPath && q != planPath
    ensures var after := PutScreenshot(files, shotPath, shot)[planPath := doc];
      q in after && after[q] == files[q]
  {
  }

  /** Writing the run summary at the root of the base directory leaves every plan file in place. */
  lemma PlanFilesSurviveSummary(files: map<Path, Content>, base: Path, first: int,
                                stamps: seq<string>, plans: seq<PlanRecord>, stamp: string, summary: Content)
    requires PlanFilesHold(files, base, first, stamps, plans)
    ensures PlanFilesHold(files[Join(base, AllPlansName(stamp)) := summary], base, first, stamps, plans)
  {
    var after := files[Join(base, AllPlansName(stamp)) := summary];
    forall j | 0 <= j < |plans|
      ensures PlanFileAt(after, base, first, stamps, plans, j)
    {
      assert PlanFileAt(files, base, first, stamps, plans, j);
      SummaryIsNoStepPath(base, stamp, first - 1 + j, stamps[j], PlanName);
    }
  }

  /**
   * One host step of a run with plan saving on: `handle_step` keeps the
   * plan file of every earlier step of the run and adds its own.
   */
  method HostStep(plugin: ScreenshotPlugin, state: BrowserState, output: AgentOutput, stepNumber: int,
                  decode: Base64Decoder, shotStamp: string, planStamp: string, time: string, ghost first: int)
    requires plugin.Valid() && plugin.savePlans
    requires stepNumber == first + |plugin.planStamps|
    requires PlanFilesHold(plugin.disk.files, plugin.baseDir, first, plugin.planStamps, plugin.plans)
    requires AllNoSeparator(plugin.planStamps) && NoSeparator(shotStamp) && NoSeparator(planStamp)
    modifies plugin, plugin.disk
    ensures plugin.Valid()
    ensures plugin.plans == old(plugin.plans) + [NewPlanRecord(output, stepNumber - 1, time)]
    ensures plugin.planStamps == old(plugin.planStamps) + [planStamp]
    ensures PlanFilesHold(plugin.disk.files, plugin.baseDir, first, plugin.planStamps, plugin.plans)
  {
    PlanFilesSurviveStep(plugin.disk.files, plugin.baseDir, first, plugin.planStamps, plugin.plans, stepNumber - 1,
                         shotStamp, ScreenshotBytes(state, decode), planStamp, NewPlanRecord(output, stepNumber - 1, time));
    plugin.HandleStep(state, output, stepNumber, decode, shotStamp, planStamp, time);
  }

  /**
   * The step directories that `Valid()` keeps for the ledger, restated by
   * position: the record saved at position j of a run starting at host step
   * `first` lies in the directory of step first - 1 + j.
   */
  lemma LedgerDirsExist(dirs: set<Path>, base: Path, first: int, stamps: seq<string>, plans: seq<PlanRecord>)
    requires |stamps| == |plans|
    requires forall i :: 0 <= i < |plans| ==> plans[i].stepNumber == first - 1 + i
    requires forall i {:trigger ExecuteDir(base, plans[i].stepNumber, stamps[i])} ::
      0 <= i < |plans| ==> ExecuteDir(base, plans[i].stepNumber, stamps[i]) in dirs
    ensures forall j :: 0 <= j < |plans| ==> ExecuteDir(base, first - 1 + j, stamps[j]) in dirs
  {
    forall j | 0 <= j < |plans|
      ensures ExecuteDir(base, first - 1 + j, stamps[j]) in dirs
    {
      assert ExecuteDir(base, plans[j].stepNumber, stamps[j]) in dirs;
    }
  }

  /**
   * A run driven by the host: `handle_step` for the host steps first,
   * first + 1, ..., one per agent output (with its own clock readings),
   * then `handle_done` at clock reading `stamp`. The ledger holds the plan
   * of every step, in order, under steps first - 1, first, ...; each step's
   * `plan.json` survives the later steps and the summary; the summary file
   * holds the whole ledger; and a run without steps writes no file at all.
   */
  method RunSteps(disk: Disk, baseDir: Path, state: BrowserState, outputs: seq<AgentOutput>,
                  decode: Base64Decoder, shotStamps: seq<string>, planStamps: seq<string>,
                  times: seq<string>, stamp: string, first: int)
    returns (plugin: ScreenshotPlugin)
    requires |outputs| == |shotStamps| == |planStamps| == |times|
    requires AllNoSeparator(shotStamps) && AllNoSeparator(planStamps)
    modifies disk
    ensures fresh(plugin) && plugin.disk == disk && plugin.baseDir == baseDir && plugin.Valid()
    ensures |plugin.plans| == |outputs| && plugin.planStamps == planStamps
    ensures forall k :: 0 <= k < |outputs| ==>
      plugin.plans[k] == NewPlanRecord(outputs[k], first - 1 + k, times[k])
    ensures PlanFilesHold(disk.files, baseDir, first, planStamps, plugin.plans)
    ensures forall k :: 0 <= k < |outputs| ==> ExecuteDir(baseDir, first - 1 + k, planStamps[k]) in disk.dirs
    ensures outputs != [] ==>
      Join(baseDir, AllPlansName(stamp)) in disk.files &&
      disk.files[Join(baseDir, AllPlansName(stamp))] == PlansDocument(plugin.plans)
    ensures outputs == [] ==> disk.files == old(disk.files)
  {
    plugin := new ScreenshotPlugin(disk, baseDir);
    for k := 0 to |outputs|
      invariant plugin.Valid() && plugin.savePlans
      invariant |plugin.plans| == k && plugin.planStamps == planStamps[..k]
      invariant forall j :: 0 <= j < k ==>
        plugin.plans[j] == NewPlanRecord(outputs[j], first - 1 + j, times[j])
      invariant PlanFilesHold(disk.files, baseDir, first, plugin.planStamps, plugin.plans)
      invariant k == 0 ==> disk.files == old(disk.files)
    {
      assert NoSeparator(shotStamps[k]) && NoSeparator(planStamps[k]);
      assert AllNoSeparator(plugin.planStamps);
      HostStep(plugin, state, outputs[k], first + k, decode, shotStamps[k], planStamps[k], times[k], first);
      assert planStamps[..k + 1] == planStamps[..k] + [planStamps[k]];
    }
    assert planStamps[..|outputs|] == planStamps;
    if outputs != [] {
      PlanFilesSurviveSummary(disk.files, baseDir, first, planStamps, plugin.plans, stamp, PlansDocument(plugin.plans));
    }
    plugin.HandleDone([], stamp);
    LedgerDirsExist(disk.dirs, baseDir, first, planStamps, plugin.plans);
  }
}
