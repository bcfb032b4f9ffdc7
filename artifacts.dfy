/**
 * The values the plugin reads from the agent (browser state, model output,
 * action results) and the records it writes: the plan record kept in the
 * ledger and written to `plan.json`, the per-result entries of
 * `results.json`, and the content of every file it creates.
 */
module Artifacts {
  import opened Options

  type Byte = bv8

  /** The browser state as far as the plugin reads it: its base64-encoded screenshot, if any. */
  datatype BrowserState = BrowserState(screenshot: Option<string>)

  /** The model's reasoning for one step (`current_state` of the agent output). */
  datatype AgentBrain = AgentBrain(evaluationPreviousGoal: string, memory: string, nextGoal: string)

  /** One proposed action, as its `model_dump()` gives it. */
  datatype ActionModel = ActionModel(fields: map<string, string>)

  datatype AgentOutput = AgentOutput(currentState: Option<AgentBrain>, action: seq<ActionModel>)

  datatype ActionResult = ActionResult(
    isDone: Option<bool>,
    success: Option<bool>,
    extractedContent: Option<string>,
    error: Option<string>,
    includeInMemory: bool)

  /** The record `save_plan` builds, appends to the ledger and writes to `plan.json`. */
  datatype PlanRecord = PlanRecord(
    stepNumber: int,
    timestamp: string,
    currentState: Option<AgentBrain>,
    actions: seq<ActionModel>,
    nextGoal: Option<string>,
    evaluation: Option<string>)

  /** One entry of `results.json`. */
  datatype ResultEntry = ResultEntry(
    extractedContent: Option<string>,
    error: Option<string>,
    success: Option<bool>,
    isDone: Option<bool>,
    includeInMemory: bool)

  /** What a file the plugin writes holds (JSON layout and indentation are not modelled). */
  datatype Content =
    | Image(bytes: seq<Byte>)
    | PlanDocument(plan: PlanRecord)
    | ResultsDocument(entries: seq<ResultEntry>)
    | PlansDocument(plans: seq<PlanRecord>)

  /** `base64.b64decode`: a partial function, None where it would raise. */
  type Base64Decoder = string -> Option<seq<Byte>>

  /**
   * The image `save_screenshot` writes: none when the state carries no
   * screenshot or an empty one (both falsy in Python), none when decoding
   * fails, and the decoded bytes otherwise.
   */
  function ScreenshotBytes(state: BrowserState, decode: Base64Decoder): (r: Option<seq<Byte>>)
    ensures r.Some? <==> state.screenshot.Some? && state.screenshot.value != "" && decode(state.screenshot.value).Some?
    ensures r.Some? ==> r == decode(state.screenshot.value)
  {
    match state.screenshot
    case None => None
    case Some(encoded) => if encoded == "" then None else decode(encoded)
  }

  /** The plan record for `output` at `step`, stamped with the clock reading `time`. */
  function NewPlanRecord(output: AgentOutput, step: int, time: string): (p: PlanRecord)
    ensures p.stepNumber == step && p.timestamp == time
    ensures p.currentState == output.currentState && p.actions == output.action
    ensures p.nextGoal.Some? <==> output.currentState.Some?
    ensures p.evaluation.Some? <==> output.currentState.Some?
    ensures output.currentState.Some? ==>
      p.nextGoal.value == output.currentState.value.nextGoal &&
      p.evaluation.value == output.currentState.value.evaluationPreviousGoal
  {
    match output.currentState
    case None => PlanRecord(step, time, None, output.action, None, None)
    case Some(brain) =>
      PlanRecord(step, time, Some(brain), output.action, Some(brain.nextGoal), Some(brain.evaluationPreviousGoal))
  }

  /** The five fields of one result that `results.json` keeps. */
  function EntryOf(r: ActionResult): (e: ResultEntry)
    ensures e.extractedContent == r.extractedContent && e.error == r.error
    ensures e.success == r.success && e.isDone == r.isDone && e.includeInMemory == r.includeInMemory
  {
    ResultEntry(r.extractedContent, r.error, r.success, r.isDone, r.includeInMemory)
  }

  /**
   * The list `save_results` writes: one entry per result, in input order,
   * each copying the result's five recorded fields.
   */
  function ResultsData(results: seq<ActionResult>): (entries: seq<ResultEntry>)
    ensures |entries| == |results|
    ensures forall i :: 0 <= i < |results| ==>
      entries[i].extractedContent == results[i].extractedContent &&
      entries[i].error == results[i].error &&
      entries[i].success == results[i].success &&
      entries[i].isDone == results[i].isDone &&
      entries[i].includeInMemory == results[i].includeInMemory
  {
    if results == [] then [] else [EntryOf(results[0])] + ResultsData(results[1..])
  }
}
