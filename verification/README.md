# Travel-wizard session model

This project models the core of a travel-recommendation wizard in Dafny. The user
goes through five steps:

- pick a persona;
- describe their "vibe": age, gender and preferred destination type;
- plan a trip;
- see a generated trip recommendation;
- see a generated packing list.

The top-level component (`src/App.tsx`) owns one session record:

- the current step;
- the profile (`UserVibe`) and the `TripPlan`;
- the two generated artifacts;
- two in-flight flags.

It hands small handlers to each step. The vibe step (`src/components/StepOne.tsx`)
turns raw input into profile updates. It enables its continue button only while
the profile is "complete", and it calls `onNext` only when the profile validator
accepts the profile.

Modules, one per concept of the program:

- `Wrappers`: `Option`, plus `Settlement` (the outcome of an awaited call: resolved with a value, or rejected).
- `Types`: the records, the `Partial<...>` update objects, and the spread merge `{ ...prev, ...updates }`, with its algebra.
- `JsNumber`: ECMAScript `parseInt` with no radix, and the decimal text of an integer. The age box uses both.
- `StepOne`: the vibe step. It covers the gender options and destination cards, `getError`, `isComplete`, `handleNext`, and the age coercion `parseInt(text) || 0`.
- `App`: the session record, its defaults, and every handler. Each async handler is split at its `await` into an *issue* part and a *settle* part. `App` also holds the render guards that decide which step component is on the page.
- `Wizard`: the session as an event machine.
  - A UI gesture can happen only while the component that receives its handler is rendered. The continue button also needs `isComplete`.
  - A settlement of any outstanding call can happen at any moment, in any order.
  - The vibe step's local error list lives only while that step is mounted.
  - Reachable states are the results of traces from the initial state. Invariants are proved for every trace.

Two parts of the program are collaborators outside this model: the generation service and the profile validator.

- The generation service is not modelled at all. A settlement event supplies the service's answer.
- The validator is a function passed in through `Wizard.Config`. None of its rules are assumed.

The `Build` parameter of the machine selects how a packing result is settled: the code as written, or the corrected version described under Findings.

Three properties of the code that a reader might expect otherwise:

- The code has no guard against a second generate request while one of the same kind is outstanding. `Wizard.DoubleGenerate` shows two requests reaching the service. It also shows the first settlement lowering the flag while the second request is still outstanding.
- `isComplete` only requires `age > 0`. The 120 appears only as the `max` attribute of the age input, which does not constrain the stored value.
- As written, the results step can be entered without a recommendation (see Findings).

## Model

| member | source | states |
|---|---|---|
| Types.MergeUserVibe | src/App.tsx:37-39 | every key present in the update replaces the profile field; every absent key leaves it unchanged |
| Types.MergeTripPlan | src/App.tsx:41-43 | every key present replaces the plan field; absent keys are preserved; `vibes` is replaced wholesale by the update's list, never appended to |
| Types.MergeUserVibeEmpty | src/App.tsx:37-39 | the empty update `{}` leaves the profile unchanged |
| Types.MergeTripPlanEmpty | src/App.tsx:41-43 | the empty update `{}` leaves the trip plan unchanged |
| Types.MergeUserVibeSequential | src/App.tsx:37-39 | two successive profile updates equal one update with the later keys overriding the earlier ones |
| Types.MergeTripPlanSequential | src/App.tsx:41-43 | two successive plan updates equal their combined update; re-applying an update is idempotent |
| Types.DisjointPlanUpdatesCommute | src/App.tsx:41-43 | plan updates with no key in common give the same plan in either order, so neither erases the other |
| Types.DestinationThenCompanions | src/App.tsx:41-43 | setting destination and then companions keeps both values and every other field of the plan |
| JsNumber.ParseIntReadsDecimal | src/components/StepOne.tsx:95 | `parseInt` reads back the decimal text of any integer followed by non-digit text; `0x` after a lone `0` is the one exception |
| JsNumber.ParseIntReadsInt | src/components/StepOne.tsx:94-95 | `parseInt` of the decimal text of any integer yields that integer |
| JsNumber.TrimStartDropsBlankPrefix | src/components/StepOne.tsx:95 | the trimming step of `parseInt` removes exactly a prefix of white space and keeps the rest of the text |
| JsNumber.ParseIntNoDigits | src/components/StepOne.tsx:95 | text whose first non-blank character is not a digit or sign parses to NaN |
| JsNumber.ParseIntSkipsWhiteSpace | src/components/StepOne.tsx:95 | leading white space never changes the parsed value |
| StepOne.GetError | src/components/StepOne.tsx:30 | returns the first error on the field, with no earlier error on it; returns none exactly when no error is on the field |
| StepOne.HandleNext | src/components/StepOne.tsx:32-39 | the stored errors are the validator's errors; `onNext` is called exactly when the validator reports the profile valid |
| StepOne.AgeFromInput | src/components/StepOne.tsx:95 | the stored age is the parsed integer, or 0 when parsing gives NaN (or 0) |
| StepOne.AgeChange | src/components/StepOne.tsx:95 | the age box sends an update holding only the coerced age |
| StepOne.GenderClick | src/components/StepOne.tsx:117-120 | a gender button sends an update holding only a gender, which is one of male, female, other |
| StepOne.DestinationClick | src/components/StepOne.tsx:147-150 | a destination card sends an update holding only a destination type, which is one of the six ids |
| StepOne.DestinationIds | src/components/StepOne.tsx:21-28 | the destination card ids are exactly beaches, mountains, cities, countryside, desert, islands |
| StepOne.AgeInputRoundTrip | src/components/StepOne.tsx:94-95 | the text shown for any age reads back as that age; age 0 shows an empty box |
| StepOne.NonNumericAgeIsZero | src/components/StepOne.tsx:95 | empty, blank or non-numeric text stores age 0 |
| StepOne.AgeChangeStaysInDomain | src/components/StepOne.tsx:95 | typing in the age box leaves gender and destination as they were |
| StepOne.GenderClickStaysInDomain | src/components/StepOne.tsx:117-120 | a gender button writes one of the offered genders and leaves the destination as it was |
| StepOne.DestinationClickStaysInDomain | src/components/StepOne.tsx:147-150 | a destination card writes one of the six offered ids and leaves the gender as it was |
| StepOne.CompleteIffPositiveAge | src/components/StepOne.tsx:41 | on a profile the step can produce, `isComplete` holds exactly when age > 0; no upper bound applies |
| App.UpdateUserVibe | src/App.tsx:37-39 | the profile becomes the merge with the update; step, plan, artifacts and flags are unchanged |
| App.UpdateTripPlan | src/App.tsx:41-43 | the plan becomes the merge with the update; everything else is unchanged |
| App.HandlePersonaSelect | src/App.tsx:45-47 | only the profile's persona changes, to the chosen one; the rest of the profile, plan, step and artifacts are unchanged |
| App.PersonaSelectIsMerge | src/App.tsx:45-47 | selecting a persona is the merge of the one-key update `{ persona }` |
| App.HandlePersonaNext | src/App.tsx:49-51 | moves persona to vibe, changing only the step |
| App.HandleVibeNext | src/App.tsx:53-55 | moves to planning, changing only the step |
| App.HandleVibeBack | src/App.tsx:57-59 | moves back to persona, changing only the step |
| App.HandlePlanningBack | src/App.tsx:61-63 | moves back to vibe, changing only the step |
| App.HandleBackFromPacking | src/App.tsx:99-101 | moves back to results, changing only the step |
| App.IssueGenerate | src/App.tsx:65-68 | raises `isGenerating` without checking it; the request carries the current profile and plan; nothing else changes |
| App.SettleGenerate | src/App.tsx:68-75 | success stores the recommendation and moves to results; failure keeps both; the flag is lowered on both paths |
| App.PrimaryVibe | src/App.tsx:81 | the primary vibe is the first vibe when there is one, otherwise exactly "adventure" |
| App.PrimaryVibeIsFirstListed | src/App.tsx:81 | the primary vibe is one of the plan's vibes when any exist; appending vibes never changes it; it is "adventure" only for no vibes or a first vibe "adventure" |
| App.IssueGeneratePacking | src/App.tsx:78-89 | raises `isGeneratingPacking`; the request carries the destination, dates, origin, profile and primary vibe; nothing else changes |
| App.SettleGeneratePacking | src/App.tsx:90-96 | as written: success stores the list and moves to packing whatever the session state; failure keeps both; the flag is lowered on both paths |
| App.SettleGeneratePackingGuarded | src/App.tsx:90-96 | corrected: a successful list is committed only while a trip recommendation is present; the flag is lowered on every path |
| App.HandleStartOver | src/App.tsx:103-121 | step becomes persona and both artifacts become null; the in-flight flags keep their values |
| App.StartOverRestoresInitial | src/App.tsx:103-121 | start over equals the initial session of lines 14-34 except for the two flags; a second start over changes nothing |
| App.Rendered | src/App.tsx:123-170 | persona selection, StepOne and StepTwo show exactly on the persona, vibe and planning steps; the results component shows only on step results with a recommendation, and the packing component only on step packing with a list; the page is blank exactly when one of those two is missing |
| Wizard.WithSession | src/App.tsx:133-140 | the vibe step's errors are kept unchanged while that step stays on the page and cleared when it leaves |
| Wizard.InitSatisfiesInvariant | src/App.tsx:14-34 | the initial session has no flag up, no errors, and a profile in the offered values |
| Wizard.NextKeepsFlagsBacked | src/App.tsx:65-97 | after any event, each in-flight flag is up only while a call of its kind is outstanding |
| Wizard.NextKeepsProfile | src/App.tsx:37-39 | after any event, the vibe step's errors are shown only on that step, and gender and destination hold offered values |
| Wizard.NextKeepsArtifacts | src/App.tsx:90-101 | after any event the packing step still has its list; in the corrected build the results and packing steps still have their trip recommendation |
| Wizard.NextPreservesInvariant | src/App.tsx:37-121 | every handler and every settlement keeps the invariant |
| Wizard.RunPreservesInvariant | src/App.tsx:65-97 | every interleaving of gestures, issues and settlements keeps the invariant |
| Wizard.ReachableInvariant | src/App.tsx:65-97 | in every reachable state a flag is up only while a call of its kind is outstanding, errors are shown only on the vibe step, and the packing step has its list |
| Wizard.ReachablePackingStepHasList | src/App.tsx:164 | in every reachable state the packing step renders its list, and the continue button is enabled exactly when age > 0 |
| Wizard.CorrectedNeverBlank | src/App.tsx:153-170 | with the corrected settlement, every reachable state renders a step; results and packing always have a trip recommendation |
| Wizard.EnteringResults | src/App.tsx:68-70 | the step becomes results only by a successful trip settlement or the packing back button |
| Wizard.RejectedSettlementStays | src/App.tsx:71-75 | a failed trip or packing call, whichever kind is outstanding, leaves the step and both artifacts unchanged and lowers its own flag |
| Wizard.VibeGate | src/components/StepOne.tsx:32-41 | continue does nothing while incomplete; otherwise it moves to planning exactly when valid, and an invalid profile stays with the validator's errors shown |
| Wizard.StartOverFromResults | src/App.tsx:103-121 | start over from results yields the initial session, keeps both flags, and leaves the outstanding calls running |
| Wizard.DoubleGenerate | src/App.tsx:65-66 | two generate clicks send two identical requests; the first settlement lowers the flag while the second is still outstanding |
| Wizard.GesturesKeepCalls | src/App.tsx:37-63 | only the two generate handlers and the settlements change the outstanding calls |
| Wizard.PersonaNextOpensVibe | src/App.tsx:49-51 | the persona step's next button opens the vibe step with the profile as it is |
| Wizard.EnterAgeStores | src/components/StepOne.tsx:95 | typing in the age box stores the age the text reads as, keeps the rest of the profile and stays on the vibe step |
| Wizard.VibeContinueAdvances | src/components/StepOne.tsx:32-39 | a complete profile that the validator accepts moves the vibe step on to planning |
| Wizard.ReachPlanning | src/components/StepOne.tsx:95 | typing 29 and continuing reaches planning when the validator accepts the profile |
| Wizard.GenerateReachesResults | src/App.tsx:65-70 | generating and receiving a trip from planning shows the results screen with that recommendation |
| Wizard.ReachResults | src/App.tsx:65-70 | the results screen is reachable with no call outstanding |
| Wizard.IssuePackingFromResults | src/App.tsx:78-79 | asking for a packing list sends one more call and stays on the results screen |
| Wizard.AsWrittenPackingOpensPackingStep | src/App.tsx:90-91 | as written, a settled packing list opens the packing step whether or not a trip recommendation is still present |
| Wizard.PackingBackToResults | src/App.tsx:99-101 | the packing step's back button returns to results with the trip recommendation as it is |
| Wizard.BlankIsStuck | src/App.tsx:123-171 | a blank page with no call outstanding is final: no event changes the machine |
| Wizard.StaleSettlementBlanksResults | src/App.tsx:90-101 | as written, a packing list settling after start over leads, through back, to step results without a recommendation |
| Wizard.AsWrittenBlankResults | src/App.tsx:153 | as written, a reachable state shows a blank page from which no event moves the session |

## Left out

- `src/components/PackingResults.tsx` is pure presentation: a date format and a `join`. JSX, styling, images, icons and progress indicators are left out everywhere.
- The generation service (`./services/gemini`) is not part of this model. A call is an issue event plus a later settlement that supplies either a result or a rejection.
- The profile validator (`src/utils/validation`) is not part of this model. It is an arbitrary function in `Wizard.Config`, so no rule of it is assumed.
- `DEFAULT_FROM_LOCATION` (`src/data/constants`) is not part of this model. Its display name is the `defaultFromLocation` field of the configuration. Dates are opaque values.
- `PersonaSelection`, `StepTwoEnhanced` and `RecommendationResults` are not part of this model. They may fire any handler they receive while they are rendered. Whether they disable a button while a flag is up is not known, so no such restriction is modelled.
- The `UserPersona`, gender and companions types are not part of this model. They are kept as strings.
- A rejection guard for duplicate requests, and cancellation, are not modelled because the code has neither.
- React batching, intermediate renders and `console.error` logging are not modelled. Each handler part is one atomic transition.
- Partial updates that carry an explicit `undefined` for a required key are not modelled. A key is either present with a value or absent.
- JsNumber.ParseInt: does not model the floating-point result of `parseInt`. Integers above 2^53 lose precision in the program but stay exact here. Each parsed value is otherwise the one ECMAScript specifies.
- App.SettleGeneratePackingGuarded: a packing list requested before a start over is still committed if a new trip recommendation is present when it arrives. The correction rules out the blank page only. Dropping every stale list would need a session counter on each call, which the code does not have.
- JsNumber.IntToDecimal: renders integers only. Exponent notation for very large numbers is not modelled.

## Findings

| source | as written | input that shows it | evidently intended | confidence | as-written member | corrected member |
|---|---|---|---|---|---|---|
| src/App.tsx:90-101 | The packing handler, after its `await`, stores the list and sets the step to packing even if start over has cleared the trip recommendation meanwhile. Back from packing then sets step results with a null recommendation. The results guard at line 153 renders nothing, and no handler is on the page any more. | With a validator that accepts age 29: persona next; type "29"; continue; generate; trip resolves; generate packing; start over; packing resolves; back | A step that needs an artifact is never shown without it: a packing list is committed only while a trip recommendation is present, so neither results nor packing is ever blank | low, not executed; relies on `RecommendationResults` (not part of this model) leaving start over clickable while a packing request is outstanding | Wizard.AsWrittenBlankResults | Wizard.CorrectedNeverBlank |
