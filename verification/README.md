# ai-shorts-automation: request validation, fallback planner, dispatch and runtime display

This project models the logic of the generate endpoint of a small short-video planning
application. The application turns a content brief (niche, tone, topic, duration, call to
action, three include flags) into a production plan. The plan has an outline of four timed
beats, a script, b-roll prompts, captions, hashtags, a checklist and a publishing hour.

The endpoint validates the brief. Without a model credential it builds the plan with a
deterministic template planner. With a credential it asks a hosted language model for one.
The plan dashboard then shows the plan's runtime as `MM:SS`.

Modules, one per concern of the source:

- `Wrappers` (`wrappers.dfy`): `Option` and `Result`.
- `Text` (`text.dfy`): JavaScript whitespace, `trim`, removing every `\s` run, and lower-casing.
- `PlanTypes` (`plan_types.dfy`): the plan and response shapes of `types/plan.ts`.
- `Request` (`request.dfy`): the request schema as a validator. It returns either a normalized
  `GenerationPayload` or the set of failing fields.
- `Fallback` (`fallback.dfy`): `getFallbackPlan`.
- `GenerateRoute` (`generate_route.dfy`): the `POST` handler. The credential is a boolean
  parameter. The model call is an abstract outcome: a parsed plan, malformed text, or an exception.
- `Decimal` (`decimal.dfy`): `Number.prototype.toString` for whole numbers below 10^21 in size,
  and reading digits back.
- `Dashboard` (`dashboard.dfy`): `secondsToTimestamp` and the runtime total.

Behaviour of the code worth knowing, each stated by a member below:

- A 60-second brief gives beats of 6, 15, 15 and 15 seconds: the CTA beat is
  `max(4, 60 - 3*15) = 15` (`Fallback.OutlineExamples`).
- The platform tag is always `#YouTubeShorts`, whatever platform the brief names.
- A niche of two or more whitespace characters passes validation and yields the tag `#`
  (`Fallback.WhitespaceNicheBareHashtag`).
- When the model's reply is malformed, `generateWithOpenAI` throws "Model returned malformed
  output" (route.ts:215) and `POST` catches it (route.ts:239-244). The client always receives
  "Failed to generate automation plan" with status 500.

## Model

| member | source | states |
|---|---|---|
| `Request.RequiredText` | ai-shorts-automation/src/app/api/generate/route.ts:6 | passes exactly when the value is a string of at least two characters, and keeps that string |
| `Request.OptionalText` | ai-shorts-automation/src/app/api/generate/route.ts:7 | passes exactly when the value is absent or a string; absent stays absent, a string is kept |
| `Request.BoundedIntOr` | ai-shorts-automation/src/app/api/generate/route.ts:10 | passes exactly when the value is absent or an integer within the bounds; absent becomes the default, a present value is kept |
| `Request.TextOr` | ai-shorts-automation/src/app/api/generate/route.ts:11 | passes exactly when the value is absent or a string; absent becomes the default |
| `Request.FlagOr` | ai-shorts-automation/src/app/api/generate/route.ts:13-15 | passes exactly when the value is absent or a boolean; absent becomes the default |
| `Request.SchemaErrors` | ai-shorts-automation/src/app/api/generate/route.ts:5-16 | the fields whose own schema fails are exactly the fields that break their constraint |
| `Request.Validate` | ai-shorts-automation/src/app/api/generate/route.ts:5-16 | accepts exactly when every field meets its constraint; a rejection names exactly the failing fields and never none; an accepted payload has niche and tone of length 2 or more and a duration in 15..120, keeps every given value, and defaults duration to 60, platform to "youtube_shorts" and the three flags to true |
| `Request.ValidateRaw` | ai-shorts-automation/src/app/api/generate/route.ts:5-16 | every well-formed payload, written out as a JSON object, validates back to itself |
| `Request.ValidateIdempotent` | ai-shorts-automation/src/app/api/generate/route.ts:5-16 | validating the validator's output again gives the same result |
| `Request.MissingNicheRejected` | ai-shorts-automation/src/app/api/generate/route.ts:6 | a body without a niche is rejected, and the rejection names the niche |
| `Request.DefaultsExample` | ai-shorts-automation/src/app/api/generate/route.ts:10-15 | a body with only niche and tone is accepted with all defaults filled in |
| `Text.Trim` | ai-shorts-automation/src/app/api/generate/route.ts:39 | the result is an infix of the input with only whitespace cut off either end; it neither starts nor ends with whitespace; it is empty exactly when the input is all whitespace |
| `Text.StripWhitespace` | ai-shorts-automation/src/app/api/generate/route.ts:97 | the result has no whitespace, contains a character exactly when the input has it outside whitespace, and is empty exactly when the input is all whitespace |
| `Text.StripWhitespaceAppend` | ai-shorts-automation/src/app/api/generate/route.ts:97 | stripping a concatenation is concatenating the stripped parts; with `Text.StripWhitespaceSingle` this fixes the result as the input's non-whitespace characters in order, repetitions kept |
| `Text.StripWhitespaceSingle` | ai-shorts-automation/src/app/api/generate/route.ts:97 | one whitespace character strips to nothing; any other character is kept as it is |
| `Text.StripWhitespaceFixesClean` | ai-shorts-automation/src/app/api/generate/route.ts:97 | a string without whitespace is left unchanged, so stripping is idempotent |
| `Text.ToLower` | ai-shorts-automation/src/app/api/generate/route.ts:46 | same length, no upper-case ASCII letter in the result, each upper-case ASCII letter replaced by its lower-case letter (code point + 32), every other character unchanged |
| `Fallback.BaseTopic` | ai-shorts-automation/src/app/api/generate/route.ts:39 | the working topic is never empty: the trimmed topic when the topic is not all whitespace, otherwise "Trending tip in " followed by the niche |
| `Fallback.RoundQuarter` | ai-shorts-automation/src/app/api/generate/route.ts:41 | `Math.round(d / 4)` is the integer r with 4r - 2 <= d < 4r + 2 (halves round up) |
| `Fallback.BeatLength` | ai-shorts-automation/src/app/api/generate/route.ts:41 | the beat length is at least 5; it is exactly 5 when d < 22, and otherwise is the rounded quarter of d |
| `Fallback.Outline` | ai-shorts-automation/src/app/api/generate/route.ts:43-66 | four beats labelled Hook, Value Drop, Execution Steps, CTA; times min(6,b), b, b, max(4, d - 3b); each time at least 4; the CTA detail is the call to action when it is non-empty, the default otherwise |
| `Fallback.MirrorScript` | ai-shorts-automation/src/app/api/generate/route.ts:68-75 | one segment per beat with the same time; the host speaks exactly the Hook beat; other segments read their beat's detail; the script's total time equals the outline's |
| `Fallback.Captions` | ai-shorts-automation/src/app/api/generate/route.ts:87-95 | empty exactly when captions are off; otherwise five lines: "Hook: " + topic, the three step lines, and the call to action whenever given (even empty), else the default follow line |
| `Fallback.Hashtags` | ai-shorts-automation/src/app/api/generate/route.ts:96-98 | empty exactly when hashtags are off; otherwise #YouTubeShorts, "#" + the niche without whitespace (no whitespace in it), #CreatorTips, #AIWorkflow |
| `Fallback.FallbackPlan` | ai-shorts-automation/src/app/api/generate/route.ts:38-111 | four beats in order and a four-segment script mirroring their times (each at least 4) and the host only on the hook; captions and hashtags empty exactly when their flag is off; three b-roll prompts; the fixed five-step checklist; publishing hour 16, within 0..23 |
| `Fallback.ShortDurationsOverrun` | ai-shorts-automation/src/app/api/generate/route.ts:41-66 | for durations 15 to 18 the beat times sum to exactly 19 |
| `Fallback.BudgetWithinDuration` | ai-shorts-automation/src/app/api/generate/route.ts:41-66 | from 19 seconds on the beat times never exceed the duration, and equal it exactly when the beat length is at most 6 |
| `Fallback.OutlineExamples` | ai-shorts-automation/src/app/api/generate/route.ts:41-66 | 60 seconds gives beats 6, 15, 15, 15; 15 seconds gives 5, 5, 5, 4 |
| `Fallback.EmptyCallToActionSplits` | ai-shorts-automation/src/app/api/generate/route.ts:59-95 | an empty call to action is the last caption (`??`) while the CTA beat falls back to its default (truthiness) |
| `Fallback.WhitespaceNicheBareHashtag` | ai-shorts-automation/src/app/api/generate/route.ts:97 | a niche that is all whitespace gives the bare tag "#" |
| `Fallback.PlanIgnoresUnusedFields` | ai-shorts-automation/src/app/api/generate/route.ts:38-111 | the plan does not depend on platform, goal or the shot-list flag |
| `GenerateRoute.Post` | ai-shorts-automation/src/app/api/generate/route.ts:219-245 | status 200, 400 and 500 go with a plan, a validation error and a generation error; 400 exactly for a non-object body or a rejected payload; it carries the failing fields of a rejected payload and no fields for a non-object body; a plan is served exactly for an accepted payload when there is no credential or the model returned a parsed plan; usingAI equals the credential flag; without a credential the plan is the fallback plan, with one it is the model's |
| `GenerateRoute.InvalidNeverGenerates` | ai-shorts-automation/src/app/api/generate/route.ts:221-228 | a rejected body gets a 400 that does not depend on the credential or on the model outcome |
| `GenerateRoute.KeylessServesFallback` | ai-shorts-automation/src/app/api/generate/route.ts:230-238 | without a credential an accepted payload gets 200, usingAI false, and exactly the fallback plan |
| `GenerateRoute.ModelFailureNoFallback` | ai-shorts-automation/src/app/api/generate/route.ts:233-244 | with a credential, malformed model output or a thrown call never yields a plan; an accepted payload gets 500, any other body keeps its 400 or 500 |
| `GenerateRoute.ProvenanceTruthful` | ai-shorts-automation/src/app/api/generate/route.ts:231-237 | usingAI is true in a response exactly when the payload is accepted, a credential is present and the model returned a parsed plan |
| `Decimal.NatToString` | ai-shorts-automation/src/components/plan-dashboard.tsx:14 | at least one digit and digits only, no leading zero, one digit exactly below 10, at most two exactly below 100 |
| `Decimal.IntToString` | ai-shorts-automation/src/components/plan-dashboard.tsx:14 | begins with a minus sign exactly for negative numbers; a non-negative n is written as digits that read back as n; a negative n as '-' followed by at least one digit reading back as -n; no leading zero, except for 0 itself |
| `Decimal.ValueOfNatToString` | ai-shorts-automation/src/components/plan-dashboard.tsx:14 | reading the decimal text of n back gives n |
| `Decimal.LeadingZeroKeepsValue` | ai-shorts-automation/src/components/plan-dashboard.tsx:14 | a leading zero does not change the value of a digit string |
| `Dashboard.PadStart2` | ai-shorts-automation/src/components/plan-dashboard.tsx:14 | the result has length max(2, n); the input is its suffix, never cut; only zeros are added in front |
| `Dashboard.JsRemainder` | ai-shorts-automation/src/components/plan-dashboard.tsx:13 | JavaScript's `%`: a - r is a multiple of b, r lies strictly between -b and b, and r is never of the opposite sign to a (non-negative for a >= 0, non-positive for a < 0), which fixes r uniquely |
| `Dashboard.ClockFields` | ai-shorts-automation/src/components/plan-dashboard.tsx:12-13 | for s >= 0: minutes >= 0, seconds in 0..59, and 60 * minutes + seconds = s |
| `Dashboard.SecondsToTimestamp` | ai-shorts-automation/src/components/plan-dashboard.tsx:11-15 | carries no contract of its own; `Dashboard.TimestampFields`, `Dashboard.TimestampShape` and `Dashboard.TimestampRoundTrip` state its fields, its shape and its read-back for s >= 0 |
| `Dashboard.TimestampFields` | ai-shorts-automation/src/components/plan-dashboard.tsx:11-15 | for s >= 0 the timestamp is the padded decimal of s / 60, a colon, and the padded decimal of s % 60 |
| `Dashboard.TimestampShape` | ai-shorts-automation/src/components/plan-dashboard.tsx:11-15 | for s >= 0: at least five characters, a colon third from the end, digits on both sides of it; exactly five characters (`MM:SS`, colon at index 2) when s < 6000, and a minutes field of three or more digits when s >= 6000 |
| `Dashboard.TimestampRoundTrip` | ai-shorts-automation/src/components/plan-dashboard.tsx:11-15 | for s >= 0, reading the minutes field M and the seconds field S back gives 60M + S = s |
| `Dashboard.Reduce` | ai-shorts-automation/src/components/plan-dashboard.tsx:20-23 | the left fold from accumulator a equals a plus the sum of the segment times |
| `Dashboard.TotalTime` | ai-shorts-automation/src/components/plan-dashboard.tsx:20-23 | the runtime is the sum of approximateTime over the script |
| `Dashboard.RuntimeLabel` | ai-shorts-automation/src/components/plan-dashboard.tsx:37-39 | the header's runtime text is a minutes field of two or more digits, a colon and a two-digit seconds field; it has exactly five characters when the runtime is under 6000 seconds, and reads back as the runtime |
| `Dashboard.FallbackRuntime` | ai-shorts-automation/src/components/plan-dashboard.tsx:20-38 | for a valid fallback plan the runtime equals the sum of the outline's beat times and is at most 120; its label has five characters and reads back as that runtime |

## Left out

- The model call (`generateWithOpenAI`): request construction, client, model settings and network I/O are not modelled. They appear only as the outcome `ParsedPlan`, `Malformed` or `Threw`.
- `JSON.parse` of the model's text and the unchecked cast to a plan are not modelled. A parsed plan is always a well-typed `AIPlan` whose times are naturals. Fractional, negative or missing fields from the model cannot be expressed.
- The environment lookup of the API key: the credential is a boolean parameter. `Boolean(value)` treats an empty key as absent; the caller's boolean stands for that test.
- `console.error` logging is not modelled.
- The validation library's internals and the shape of `error.flatten()` are not modelled. The details are the set of failing field names. The messages ("Niche is required") are dropped. A JSON body that is not an object gets an empty field set, standing for the library's form-level error.
- Request.RequiredText: counts Unicode scalar values, where JavaScript's `length` counts UTF-16 code units. So one character outside the Basic Multilingual Plane passes `min(2)` in the source but not in the model.
- Request.Validate: models JSON numbers only as integers. Every fractional number is `Other`, which the duration schema rejects just as `int()` does.
- Text.ToLower: lower-cases the ASCII letters only. Full Unicode case mapping, which can change a string's length, is not modelled. It only affects template text.
- Text.IsWhitespace lists the space separators of Unicode 15. Other Unicode versions may differ.
- Dashboard.SecondsToTimestamp: defined for every integer, with JavaScript's truncating `%`. Its shape and round-trip properties are stated for non-negative counts only. Those are the only counts a fallback plan produces.
- Fallback.FallbackPlan: the exact wording of the title, hook line, beat details and b-roll prompts is modelled. Apart from the topic, captions and hashtags, no property is stated about it. That includes the mis-encoded dash of the hook line, kept as its three characters.
- Double-precision numbers: JavaScript numbers are doubles, while the model's integers are unbounded and exact. The dashboard's `reduce` sum, `Math.floor(seconds / 60)` and `%` agree with the model below 2^53, and `toString` writes plain digits only below 10^21 (from there on it uses exponent notation, such as "1e+21"). Counts that large reach the dashboard only through a model-generated plan; a fallback plan's runtime is at most 120 seconds.
- Determinism and idempotence of the planner hold by construction, because it is a Dafny function. No lemma states them.
- The React parts of the dashboard, the generation form and the page are not modelled: state, rendering, `fetch`, beat selection.
