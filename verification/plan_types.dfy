/** The shapes of a production plan and of the endpoint's success response. */
module PlanTypes {

  /** One labelled segment of the outline with its time budget in seconds. */
  datatype OutlineBeat = OutlineBeat(beat: string, detail: string, approximateTime: nat)

  /** Who speaks a script segment: the on-camera host or the voice-over narrator. */
  datatype Speaker = Host | Narrator

  datatype ScriptSegment = ScriptSegment(speaker: Speaker, text: string, approximateTime: nat)

  datatype PublishTiming = PublishTiming(bestHourUTC: int, rationale: string)

  datatype AIPlan = AIPlan(
    conceptTitle: string,
    hook: string,
    outline: seq<OutlineBeat>,
    script: seq<ScriptSegment>,
    bRollPrompts: seq<string>,
    captions: seq<string>,
    hashtags: seq<string>,
    automationChecklist: seq<string>,
    publishTiming: PublishTiming)

  /** A plan together with its provenance: true when a language model wrote it. */
  datatype GenerationResponse = GenerationResponse(usingAI: bool, plan: AIPlan)

  /** The outline's time budgets added up. */
  function OutlineTime(outline: seq<OutlineBeat>): nat
    decreases |outline|
  {
    if outline == [] then 0 else outline[0].approximateTime + OutlineTime(outline[1..])
  }

  /** The script's time budgets added up. */
  function ScriptTime(script: seq<ScriptSegment>): nat
    decreases |script|
  {
    if script == [] then 0 else script[0].approximateTime + ScriptTime(script[1..])
  }
}
