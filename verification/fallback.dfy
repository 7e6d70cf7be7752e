/**
 * The deterministic planner the endpoint uses when no model credential is
 * configured: a pure function from a normalized request to a complete plan,
 * built from fixed templates and a four-beat time budget.
 */
module Fallback {
  import opened Wrappers
  import opened Text
  import opened Decimal
  import opened PlanTypes
  import opened Request

  const HookLabel := "Hook"
  const ValueDropLabel := "Value Drop"
  const ExecutionLabel := "Execution Steps"
  const CtaLabel := "CTA"
  const BeatLabels: seq<string> := [HookLabel, ValueDropLabel, ExecutionLabel, CtaLabel]

  const ExecutionDetail := "Break the tactic into 2-3 punchy steps viewers can follow in under a minute."
  const DefaultCtaDetail := "Encourage viewers to try it today and follow for more quick wins."
  const TopicPrefix := "Trending tip in "
  const CaptionPrefix := "Hook: "
  const StepCaptions: seq<string> :=
    ["Step 1: Start today", "Step 2: Keep it consistent", "Step 3: Share your results"]
  const DefaultFollowCaption := "Follow for more AI Shorts tactics"
  const PlatformHashtag := "#YouTubeShorts"
  const FixedHashtags: seq<string> := ["#CreatorTips", "#AIWorkflow"]
  const ShotPrompt := "Close-up of creator demonstrating the tactic"
  const Checklist: seq<string> := [
    "Generate storyboard in favorite AI storyboard tool",
    "Use text-to-speech for narration and refine in audio editor",
    "Render b-roll clips with preferred video generator",
    "Assemble timeline in template project",
    "Schedule upload and auto-caption in YouTube Studio"
  ]
  const BestHourUTC := 16
  const TimingRationale := "Optimized for after-school viewing window for global audience."
  /** The hook line's mis-encoded en dash: its UTF-8 bytes read as Windows-1252. */
  const Dash := "\U{00E2}\U{20AC}\U{201C}"

  function Min(a: int, b: int): int { if a <= b then a else b }
  function Max(a: int, b: int): int { if a >= b then a else b }

  /** JavaScript truthiness of an optional string: present and non-empty. */
  predicate Truthy(o: Option<string>) {
    o.Some? && o.value != []
  }

  /**
   * The working topic: the trimmed topic when that leaves anything, otherwise
   * a generic one built from the niche. It is never empty.
   */
  function BaseTopic(input: GenerationPayload): (t: string)
    ensures t != []
    ensures input.topic.Some? && !AllWhitespace(input.topic.value) ==> t == Trim(input.topic.value)
    ensures input.topic.None? || AllWhitespace(input.topic.value) ==> t == TopicPrefix + input.niche
  {
    var trimmed := if input.topic.Some? then Trim(input.topic.value) else [];
    if trimmed != [] then trimmed else TopicPrefix + input.niche
  }

  /**
   * `Math.round(d / 4)`: JavaScript rounds halves upward, so the result is
   * floor(d/4 + 1/2), the integer whose quarter-grid interval holds `d`.
   */
  function RoundQuarter(d: int): (r: int)
    ensures 4 * r - 2 <= d < 4 * r + 2
  {
    (d + 2) / 4
  }

  /** `max(5, round(d / 4))`: five seconds below 22, the rounded quarter from there on. */
  function BeatLength(d: int): (b: int)
    ensures b >= 5
    ensures b == 5 <==> d < 22
    ensures b > 5 ==> 4 * b - 2 <= d < 4 * b + 2
  {
    Max(5, RoundQuarter(d))
  }

  function HookTime(b: int): nat
    requires b >= 5
  {
    Min(6, b)
  }

  function CtaTime(d: int, b: int): nat {
    Max(4, d - 3 * b)
  }

  /**
   * The four beats in their fixed order with their time budgets: the hook gets
   * at most six seconds, the middle beats one beat length each, and the call to
   * action what is left of the duration, but never under four seconds.
   */
  function Outline(input: GenerationPayload, baseTopic: string): (o: seq<OutlineBeat>)
    ensures |o| == 4
    ensures forall i :: 0 <= i < 4 ==> o[i].beat == BeatLabels[i]
    ensures var b := BeatLength(input.durationSeconds);
      && o[0].approximateTime == Min(6, b)
      && o[1].approximateTime == b
      && o[2].approximateTime == b
      && o[3].approximateTime == Max(4, input.durationSeconds - 3 * b)
    ensures forall i :: 0 <= i < 4 ==> o[i].approximateTime >= 4
    ensures o[3].detail == if Truthy(input.callToAction) then input.callToAction.value else DefaultCtaDetail
  {
    var b := BeatLength(input.durationSeconds);
    [
      OutlineBeat(HookLabel, "Pose a bold question about " + ToLower(baseTopic) + ".", HookTime(b)),
      OutlineBeat(ValueDropLabel,
        "Reveal a surprising " + ToLower(input.niche) + " stat or tactic with fast pacing.", b),
      OutlineBeat(ExecutionLabel, ExecutionDetail, b),
      OutlineBeat(CtaLabel,
        if Truthy(input.callToAction) then input.callToAction.value else DefaultCtaDetail,
        CtaTime(input.durationSeconds, b))
    ]
  }

  /** The line the host says over the hook beat. */
  function HookLine(baseTopic: string): string {
    "Wait! Are you still ignoring " + ToLower(baseTopic) + "? That ends now."
  }

  /** The script segment for one outline beat. */
  function SegmentFor(step: OutlineBeat, baseTopic: string): ScriptSegment {
    ScriptSegment(
      if step.beat == HookLabel then Host else Narrator,
      if step.beat == HookLabel then HookLine(baseTopic) else step.detail,
      step.approximateTime)
  }

  /**
   * `outline.map(...)`: one segment per beat in the same order and with the same
   * time budget; the host speaks the hook and the narrator reads every other beat's detail.
   */
  function MirrorScript(outline: seq<OutlineBeat>, baseTopic: string): (script: seq<ScriptSegment>)
    ensures |script| == |outline|
    ensures forall i :: 0 <= i < |outline| ==> script[i].approximateTime == outline[i].approximateTime
    ensures forall i :: 0 <= i < |outline| ==> (script[i].speaker == Host <==> outline[i].beat == HookLabel)
    ensures forall i :: 0 <= i < |outline| && outline[i].beat != HookLabel ==> script[i].text == outline[i].detail
    ensures forall i :: 0 <= i < |outline| && outline[i].beat == HookLabel ==> script[i].text == HookLine(baseTopic)
    ensures ScriptTime(script) == OutlineTime(outline)
    decreases |outline|
  {
    if outline == [] then []
    else [SegmentFor(outline[0], baseTopic)] + MirrorScript(outline[1..], baseTopic)
  }

  /**
   * Five caption lines when captions are wanted, none otherwise. The last line
   * is the call to action whenever one was given, even an empty one (`??`).
   */
  function Captions(input: GenerationPayload, baseTopic: string): (c: seq<string>)
    ensures c == [] <==> !input.includeCaptions
    ensures input.includeCaptions ==>
      && |c| == 5
      && c[0] == CaptionPrefix + baseTopic
      && c[1..4] == StepCaptions
      && c[4] == input.callToAction.GetOr(DefaultFollowCaption)
  {
    if input.includeCaptions then
      [CaptionPrefix + baseTopic] + StepCaptions + [input.callToAction.GetOr(DefaultFollowCaption)]
    else
      []
  }

  /**
   * Four hashtags when hashtags are wanted, none otherwise: a fixed platform tag
   * whatever the platform, the niche with its whitespace removed, and two fixed tags.
   */
  function Hashtags(input: GenerationPayload): (h: seq<string>)
    ensures h == [] <==> !input.includeHashtags
    ensures input.includeHashtags ==>
      && |h| == 4
      && h[0] == PlatformHashtag
      && h[1] == "#" + StripWhitespace(input.niche)
      && NoWhitespace(h[1])
      && h[2..] == FixedHashtags
  {
    if input.includeHashtags then
      [PlatformHashtag, "#" + StripWhitespace(input.niche)] + FixedHashtags
    else
      []
  }

  /** `getFallbackPlan`. */
  function FallbackPlan(input: GenerationPayload): (plan: AIPlan)
    ensures |plan.outline| == 4 && |plan.script| == 4
    ensures forall i :: 0 <= i < 4 ==> plan.outline[i].beat == BeatLabels[i]
    ensures forall i :: 0 <= i < 4 ==> plan.script[i].approximateTime == plan.outline[i].approximateTime >= 4
    ensures forall i :: 0 <= i < 4 ==> (plan.script[i].speaker == Host <==> i == 0)
    ensures forall i :: 1 <= i < 4 ==> plan.script[i].text == plan.outline[i].detail
    ensures ScriptTime(plan.script) == OutlineTime(plan.outline)
    ensures plan.captions == [] <==> !input.includeCaptions
    ensures plan.hashtags == [] <==> !input.includeHashtags
    ensures |plan.bRollPrompts| == 3
    ensures plan.automationChecklist == Checklist && |plan.automationChecklist| == 5
    ensures plan.publishTiming.bestHourUTC == 16 && 0 <= plan.publishTiming.bestHourUTC <= 23
  {
    var baseTopic := BaseTopic(input);
    var outline := Outline(input, baseTopic);
    AIPlan(
      baseTopic + " (" + input.niche + " " + input.tone + ")",
      "You're missing out on " + ToLower(baseTopic) + " " + Dash + " here's how to fix it in "
        + IntToString(input.durationSeconds) + " seconds.",
      outline,
      MirrorScript(outline, baseTopic),
      [
        "Dynamic text animation highlighting \"" + baseTopic + "\"",
        ShotPrompt,
        "Fast-cut montage related to " + ToLower(input.niche) + " results"
      ],
      Captions(input, baseTopic),
      Hashtags(input),
      Checklist,
      PublishTiming(BestHourUTC, TimingRationale))
  }

  // ---- the time budget ----

  lemma OutlineTimeOfFour(o: seq<OutlineBeat>)
    requires |o| == 4
    ensures OutlineTime(o) == o[0].approximateTime + o[1].approximateTime + o[2].approximateTime + o[3].approximateTime
  {
    assert o[1..][1..] == o[2..] && o[2..][1..] == o[3..] && o[3..][1..] == [];
    assert OutlineTime(o[3..]) == o[3].approximateTime;
    assert OutlineTime(o[2..]) == o[2].approximateTime + OutlineTime(o[3..]);
    assert OutlineTime(o[1..]) == o[1].approximateTime + OutlineTime(o[2..]);
  }

  /** From 15 to 18 seconds the four floors add up to 19, overrunning the duration by up to four seconds. */
  lemma ShortDurationsOverrun(g: GenerationPayload)
    requires 15 <= g.durationSeconds <= 18
    ensures OutlineTime(FallbackPlan(g).outline) == 19
  {
    OutlineTimeOfFour(FallbackPlan(g).outline);
  }

  /**
   * From 19 seconds on the beats never overrun the duration, and they fill it
   * exactly when the beat length is at most six, that is when the hook is not cut short.
   */
  lemma BudgetWithinDuration(g: GenerationPayload)
    requires g.durationSeconds >= 19
    ensures OutlineTime(FallbackPlan(g).outline) <= g.durationSeconds
    ensures OutlineTime(FallbackPlan(g).outline) == g.durationSeconds <==> BeatLength(g.durationSeconds) <= 6
  {
    var d := g.durationSeconds;
    var b := BeatLength(d);
    OutlineTimeOfFour(FallbackPlan(g).outline);
    assert d - 3 * b >= 4;
  }

  /** A minute gives beats of 6, 15, 15 and 15 seconds; the shortest request gives 5, 5, 5 and 4. */
  lemma OutlineExamples(g: GenerationPayload)
    ensures g.durationSeconds == 60 ==> OutlineTimes(FallbackPlan(g).outline) == [6, 15, 15, 15]
    ensures g.durationSeconds == 15 ==> OutlineTimes(FallbackPlan(g).outline) == [5, 5, 5, 4]
  {
  }

  function OutlineTimes(o: seq<OutlineBeat>): (t: seq<nat>)
    ensures |t| == |o|
    ensures forall i :: 0 <= i < |o| ==> t[i] == o[i].approximateTime
  {
    seq(|o|, i requires 0 <= i < |o| => o[i].approximateTime)
  }

  // ---- the call to action and the niche tag ----

  /**
   * An empty call to action is kept as the last caption (`??` only replaces a
   * missing value) but replaced by the default in the CTA beat (the beat tests truthiness).
   */
  lemma EmptyCallToActionSplits(g: GenerationPayload)
    requires g.callToAction == Some("") && g.includeCaptions
    ensures FallbackPlan(g).captions[4] == ""
    ensures FallbackPlan(g).outline[3].detail == DefaultCtaDetail
  {
  }

  /** A niche made only of whitespace passes validation yet leaves a bare `#` as its tag. */
  lemma WhitespaceNicheBareHashtag(g: GenerationPayload)
    requires AllWhitespace(g.niche) && g.includeHashtags
    ensures FallbackPlan(g).hashtags[1] == "#"
  {
  }

  /** The planner never reads the platform, the goal or the shot-list flag. */
  lemma PlanIgnoresUnusedFields(g: GenerationPayload, platform: string, goal: Option<string>, shotList: bool)
    ensures FallbackPlan(g) == FallbackPlan(g.(platform := platform, goal := goal, includeShotList := shotList))
  {
  }
}
