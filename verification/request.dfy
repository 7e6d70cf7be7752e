/**
 * The request schema of the generate endpoint, as a validator: a loosely
 * typed JSON object is either rejected, naming every field that breaks its
 * constraint, or normalized into a GenerationPayload with defaults filled in.
 * Each field is checked on its own, so all failures are collected at once.
 */
module Request {
  import opened Wrappers

  /**
   * A JSON value as the schema sees it. Fractional numbers, null, arrays and
   * objects are all `Other`: no field of the schema accepts any of them.
   */
  datatype Value = Str(s: string) | Int(i: int) | Bool(b: bool) | Other

  datatype Field =
    | Niche | Topic | Tone | Goal | DurationSeconds | Platform | CallToAction
    | IncludeCaptions | IncludeHashtags | IncludeShotList

  const AllFields: set<Field> := {
    Niche, Topic, Tone, Goal, DurationSeconds, Platform, CallToAction,
    IncludeCaptions, IncludeHashtags, IncludeShotList
  }

  /** The request body's fields; `None` is a key that is missing. Unknown keys are dropped by the schema. */
  datatype RawPayload = RawPayload(
    niche: Option<Value>,
    topic: Option<Value>,
    tone: Option<Value>,
    goal: Option<Value>,
    durationSeconds: Option<Value>,
    platform: Option<Value>,
    callToAction: Option<Value>,
    includeCaptions: Option<Value>,
    includeHashtags: Option<Value>,
    includeShotList: Option<Value>)

  /** A request after validation: required fields present and defaulted fields filled in. */
  datatype GenerationPayload = GenerationPayload(
    niche: string,
    topic: Option<string>,
    tone: string,
    goal: Option<string>,
    durationSeconds: int,
    platform: string,
    callToAction: Option<string>,
    includeCaptions: bool,
    includeHashtags: bool,
    includeShotList: bool)

  const MinTextLength := 2
  const MinDuration := 15
  const MaxDuration := 120
  const DefaultDuration := 60
  const DefaultPlatform := "youtube_shorts"

  /** What every payload the validator accepts satisfies. */
  predicate WellFormed(g: GenerationPayload) {
    && |g.niche| >= MinTextLength
    && |g.tone| >= MinTextLength
    && MinDuration <= g.durationSeconds <= MaxDuration
  }

  // ---- the schema, field by field ----

  /** The verdict of one field's schema on one value. */
  datatype Check<T> = Pass(value: T) | Fail

  /** `z.string().min(2)`: required, a string, at least two characters. */
  function RequiredText(v: Option<Value>): (c: Check<string>)
    ensures c.Pass? <==> v.Some? && v.value.Str? && |v.value.s| >= MinTextLength
    ensures c.Pass? ==> v == Some(Str(c.value))
  {
    match v
    case Some(Str(s)) => if |s| >= MinTextLength then Pass(s) else Fail
    case _ => Fail
  }

  /** `z.string().optional()`. */
  function OptionalText(v: Option<Value>): (c: Check<Option<string>>)
    ensures c.Pass? <==> v.None? || v.value.Str?
    ensures c.Pass? ==> (c.value.None? <==> v.None?)
    ensures c.Pass? && c.value.Some? ==> v == Some(Str(c.value.value))
  {
    match v
    case None => Pass(None)
    case Some(Str(s)) => Pass(Some(s))
    case _ => Fail
  }

  /** `z.string().default(d)`. */
  function TextOr(v: Option<Value>, d: string): (c: Check<string>)
    ensures c.Pass? <==> v.None? || v.value.Str?
    ensures c.Pass? ==> Carried(v, s => Str(s), d, c.value)
  {
    match v
    case None => Pass(d)
    case Some(Str(s)) => Pass(s)
    case _ => Fail
  }

  /** `z.number().int().min(lo).max(hi).default(d)`. */
  function BoundedIntOr(v: Option<Value>, lo: int, hi: int, d: int): (c: Check<int>)
    ensures c.Pass? <==> v.None? || (v.value.Int? && lo <= v.value.i <= hi)
    ensures c.Pass? ==> Carried(v, i => Int(i), d, c.value)
    ensures c.Pass? && v.Some? ==> lo <= c.value <= hi
  {
    match v
    case None => Pass(d)
    case Some(Int(i)) => if lo <= i <= hi then Pass(i) else Fail
    case _ => Fail
  }

  /** `z.boolean().default(d)`. */
  function FlagOr(v: Option<Value>, d: bool): (c: Check<bool>)
    ensures c.Pass? <==> v.None? || v.value.Bool?
    ensures c.Pass? ==> Carried(v, b => Bool(b), d, c.value)
  {
    match v
    case None => Pass(d)
    case Some(Bool(b)) => Pass(b)
    case _ => Fail
  }

  /** Whether field `f` of `p` fails its own schema. */
  predicate SchemaFails(p: RawPayload, f: Field) {
    match f
    case Niche => RequiredText(p.niche).Fail?
    case Topic => OptionalText(p.topic).Fail?
    case Tone => RequiredText(p.tone).Fail?
    case Goal => OptionalText(p.goal).Fail?
    case DurationSeconds =>
      BoundedIntOr(p.durationSeconds, MinDuration, MaxDuration, DefaultDuration).Fail?
    case Platform => TextOr(p.platform, DefaultPlatform).Fail?
    case CallToAction => OptionalText(p.callToAction).Fail?
    case IncludeCaptions => FlagOr(p.includeCaptions, true).Fail?
    case IncludeHashtags => FlagOr(p.includeHashtags, true).Fail?
    case IncludeShotList => FlagOr(p.includeShotList, true).Fail?
  }

  /** Every field run through its own schema; the fields whose schema fails. */
  function SchemaErrors(p: RawPayload): (errors: set<Field>)
    ensures errors == FailingFields(p)
  {
    SchemaFailsExactly(p);
    set f | f in AllFields && SchemaFails(p, f)
  }

  /** Each field's schema fails exactly when the field breaks its constraint. */
  lemma SchemaFailsExactly(p: RawPayload)
    ensures forall f :: SchemaFails(p, f) <==> !FieldAcceptable(p, f)
  {
    forall f ensures SchemaFails(p, f) <==> !FieldAcceptable(p, f) {
      match f
      case Niche =>
      case Topic =>
      case Tone =>
      case Goal =>
      case DurationSeconds =>
      case Platform =>
      case CallToAction =>
      case IncludeCaptions =>
      case IncludeHashtags =>
      case IncludeShotList =>
    }
  }

  // ---- what acceptance means, stated field by field ----

  function FieldValue(p: RawPayload, f: Field): Option<Value> {
    match f
    case Niche => p.niche
    case Topic => p.topic
    case Tone => p.tone
    case Goal => p.goal
    case DurationSeconds => p.durationSeconds
    case Platform => p.platform
    case CallToAction => p.callToAction
    case IncludeCaptions => p.includeCaptions
    case IncludeHashtags => p.includeHashtags
    case IncludeShotList => p.includeShotList
  }

  /** Whether field `f` of `p` meets its constraint. */
  predicate FieldAcceptable(p: RawPayload, f: Field) {
    var v := FieldValue(p, f);
    match f
    case Niche => v.Some? && v.value.Str? && |v.value.s| >= MinTextLength
    case Tone => v.Some? && v.value.Str? && |v.value.s| >= MinTextLength
    case DurationSeconds => v.None? || (v.value.Int? && MinDuration <= v.value.i <= MaxDuration)
    case IncludeCaptions => v.None? || v.value.Bool?
    case IncludeHashtags => v.None? || v.value.Bool?
    case IncludeShotList => v.None? || v.value.Bool?
    case _ => v.None? || v.value.Str?
  }

  function FailingFields(p: RawPayload): set<Field> {
    set f | f in AllFields && !FieldAcceptable(p, f)
  }

  /** A present field value is carried over unchanged; an absent one takes its default. */
  predicate Carried<T(==)>(v: Option<Value>, wrap: T -> Value, d: T, out: T) {
    v == Some(wrap(out)) || (v.None? && out == d)
  }

  /** How an accepted payload relates to the raw one it came from. */
  predicate Normalizes(p: RawPayload, g: GenerationPayload) {
    && p.niche == Some(Str(g.niche))
    && p.tone == Some(Str(g.tone))
    && (p.topic.None? <==> g.topic.None?) && (g.topic.Some? ==> p.topic == Some(Str(g.topic.value)))
    && (p.goal.None? <==> g.goal.None?) && (g.goal.Some? ==> p.goal == Some(Str(g.goal.value)))
    && (p.callToAction.None? <==> g.callToAction.None?)
    && (g.callToAction.Some? ==> p.callToAction == Some(Str(g.callToAction.value)))
    && Carried(p.durationSeconds, i => Int(i), DefaultDuration, g.durationSeconds)
    && Carried(p.platform, s => Str(s), DefaultPlatform, g.platform)
    && Carried(p.includeCaptions, b => Bool(b), true, g.includeCaptions)
    && Carried(p.includeHashtags, b => Bool(b), true, g.includeHashtags)
    && Carried(p.includeShotList, b => Bool(b), true, g.includeShotList)
  }

  lemma AllFieldsComplete()
    ensures forall f: Field :: f in AllFields
  {
    forall f: Field ensures f in AllFields {
      match f
      case Niche =>
      case Topic =>
      case Tone =>
      case Goal =>
      case DurationSeconds =>
      case Platform =>
      case CallToAction =>
      case IncludeCaptions =>
      case IncludeHashtags =>
      case IncludeShotList =>
    }
  }

  /** With no failing field, every field meets its constraint and passes its schema. */
  lemma AcceptedWhenNoErrors(p: RawPayload)
    requires FailingFields(p) == {}
    ensures forall f :: FieldAcceptable(p, f) && !SchemaFails(p, f)
  {
    AllFieldsComplete();
    SchemaFailsExactly(p);
    forall f ensures FieldAcceptable(p, f) {
      assert f in AllFields;
      assert f !in FailingFields(p);
    }
  }

  /**
   * `requestSchema.safeParse`: accepts exactly when every field meets its
   * constraint, rejects naming exactly the failing fields, and on acceptance
   * returns a well-formed payload that keeps every given value and defaults the rest.
   */
  function Validate(p: RawPayload): (r: Result<GenerationPayload, set<Field>>)
    ensures r.Success? <==> forall f :: FieldAcceptable(p, f)
    ensures r.Failure? ==> r.error == FailingFields(p) && r.error != {}
    ensures r.Success? ==> WellFormed(r.value) && Normalizes(p, r.value)
  {
    var niche := RequiredText(p.niche);
    var topic := OptionalText(p.topic);
    var tone := RequiredText(p.tone);
    var goal := OptionalText(p.goal);
    var duration := BoundedIntOr(p.durationSeconds, MinDuration, MaxDuration, DefaultDuration);
    var platform := TextOr(p.platform, DefaultPlatform);
    var callToAction := OptionalText(p.callToAction);
    var captions := FlagOr(p.includeCaptions, true);
    var hashtags := FlagOr(p.includeHashtags, true);
    var shotList := FlagOr(p.includeShotList, true);
    var errors := SchemaErrors(p);
    AllFieldsComplete();
    if errors == {} then
      AcceptedWhenNoErrors(p);
      assert && !SchemaFails(p, Niche) && !SchemaFails(p, Topic) && !SchemaFails(p, Tone)
             && !SchemaFails(p, Goal) && !SchemaFails(p, DurationSeconds) && !SchemaFails(p, Platform)
             && !SchemaFails(p, CallToAction) && !SchemaFails(p, IncludeCaptions)
             && !SchemaFails(p, IncludeHashtags) && !SchemaFails(p, IncludeShotList);
      Success(GenerationPayload(
        niche.value, topic.value, tone.value, goal.value, duration.value, platform.value,
        callToAction.value, captions.value, hashtags.value, shotList.value))
    else
      Failure(errors)
  }

  /** The JSON object that spells out every field of a normalized payload. */
  function Raw(g: GenerationPayload): RawPayload {
    RawPayload(
      Some(Str(g.niche)),
      if g.topic.Some? then Some(Str(g.topic.value)) else None,
      Some(Str(g.tone)),
      if g.goal.Some? then Some(Str(g.goal.value)) else None,
      Some(Int(g.durationSeconds)),
      Some(Str(g.platform)),
      if g.callToAction.Some? then Some(Str(g.callToAction.value)) else None,
      Some(Bool(g.includeCaptions)),
      Some(Bool(g.includeHashtags)),
      Some(Bool(g.includeShotList)))
  }

  /** Every well-formed payload is what the validator makes of its own JSON object. */
  lemma ValidateRaw(g: GenerationPayload)
    requires WellFormed(g)
    ensures Validate(Raw(g)) == Success(g)
  {
    var r := Validate(Raw(g));
    assert forall f :: FieldAcceptable(Raw(g), f);
    assert r.Success?;
  }

  /** Validating a validator's output again changes nothing. */
  lemma ValidateIdempotent(p: RawPayload)
    requires Validate(p).Success?
    ensures Validate(Raw(Validate(p).value)) == Validate(p)
  {
    ValidateRaw(Validate(p).value);
  }

  /** A body without a niche is rejected, and the rejection names the niche. */
  lemma MissingNicheRejected(p: RawPayload)
    requires p.niche.None?
    ensures Validate(p).Failure? && Niche in Validate(p).error
  {
    AllFieldsComplete();
  }

  /** Only the two required texts: accepted, with every default filled in. */
  lemma DefaultsExample(niche: string, tone: string)
    requires |niche| >= 2 && |tone| >= 2
    ensures Validate(RawPayload(Some(Str(niche)), None, Some(Str(tone)), None, None, None, None, None, None, None))
      == Success(GenerationPayload(niche, None, tone, None, 60, "youtube_shorts", None, true, true, true))
  {
    AllFieldsComplete();
  }
}
