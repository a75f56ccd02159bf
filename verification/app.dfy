/** The wizard session owned by the top-level component: its record, the
    defaults it starts from, and every handler it hands to the steps. Each
    awaited generation call is split in two: the handler's synchronous part up
    to the `await` (which issues the request) and the part after it (which
    settles it). */
module App {
  import opened Wrappers
  import opened Types

  datatype Step = PersonaStep | VibeStep | PlanningStep | ResultsStep | PackingStep

  /** All state the top-level component holds. */
  datatype Session = Session(
    currentStep: Step,
    isGenerating: bool,
    userVibe: UserVibe,
    tripPlan: TripPlan,
    recommendation: Option<TripRecommendation>,
    packingRecommendation: Option<PackingRecommendation>,
    isGeneratingPacking: bool)

  /** The request sent to the trip generator. */
  datatype TripCall = TripCall(userVibe: UserVibe, tripPlan: TripPlan)

  /** The request sent to the packing generator. */
  datatype PackingCall = PackingCall(
    destination: string,
    startDate: Option<CalendarDate>,
    endDate: Option<CalendarDate>,
    primaryVibe: string,
    userVibe: UserVibe,
    fromLocation: string)

  /** The vibe sent for packing when the plan has none. */
  const FallbackVibe := "adventure"

  /** The profile a session starts with. */
  const DefaultUserVibe := UserVibe(0, "male", "beaches", None)

  /** The trip plan a session starts with; `defaultFromLocation` is the
      configured origin's display name. */
  function DefaultTripPlan(defaultFromLocation: string): TripPlan
  {
    TripPlan("", defaultFromLocation, None, None, "solo", [])
  }

  /** The state of a freshly mounted session. */
  function Initial(defaultFromLocation: string): Session
  {
    Session(PersonaStep, false, DefaultUserVibe, DefaultTripPlan(defaultFromLocation), None, None, false)
  }

  /** `updateUserVibe`: merge into the profile; nothing else changes. */
  function UpdateUserVibe(s: Session, updates: UserVibePatch): (r: Session)
    ensures r.userVibe == MergeUserVibe(s.userVibe, updates)
    ensures r.(userVibe := s.userVibe) == s
  {
    s.(userVibe := MergeUserVibe(s.userVibe, updates))
  }

  /** `updateTripPlan`: merge into the trip plan; nothing else changes. */
  function UpdateTripPlan(s: Session, updates: TripPlanPatch): (r: Session)
    ensures r.tripPlan == MergeTripPlan(s.tripPlan, updates)
    ensures r.(tripPlan := s.tripPlan) == s
  {
    s.(tripPlan := MergeTripPlan(s.tripPlan, updates))
  }

  /** `handlePersonaSelect`: only the persona of the profile changes. */
  function HandlePersonaSelect(s: Session, persona: PersonaId): (r: Session)
    ensures r.userVibe.persona == Some(persona)
    ensures r.userVibe.(persona := s.userVibe.persona) == s.userVibe
    ensures r.(userVibe := s.userVibe) == s
  {
    s.(userVibe := s.userVibe.(persona := Some(persona)))
  }

  /** `handlePersonaNext`: persona to vibe. */
  function HandlePersonaNext(s: Session): (r: Session)
    ensures r.currentStep == VibeStep && r.(currentStep := s.currentStep) == s
  {
    s.(currentStep := VibeStep)
  }

  /** `handleVibeNext`: vibe to planning. */
  function HandleVibeNext(s: Session): (r: Session)
    ensures r.currentStep == PlanningStep && r.(currentStep := s.currentStep) == s
  {
    s.(currentStep := PlanningStep)
  }

  /** `handleVibeBack`: vibe back to persona. */
  function HandleVibeBack(s: Session): (r: Session)
    ensures r.currentStep == PersonaStep && r.(currentStep := s.currentStep) == s
  {
    s.(currentStep := PersonaStep)
  }

  /** `handlePlanningBack`: planning back to vibe. */
  function HandlePlanningBack(s: Session): (r: Session)
    ensures r.currentStep == VibeStep && r.(currentStep := s.currentStep) == s
  {
    s.(currentStep := VibeStep)
  }

  /** `handleBackFromPacking`: packing back to results. */
  function HandleBackFromPacking(s: Session): (r: Session)
    ensures r.currentStep == ResultsStep && r.(currentStep := s.currentStep) == s
  {
    s.(currentStep := ResultsStep)
  }

  /** `handleGenerate` up to its `await`: raise the flag and send the current
      profile and plan. The flag is raised whatever its value was. */
  function IssueGenerate(s: Session): (r: (Session, TripCall))
    ensures r.0.isGenerating
    ensures r.0.(isGenerating := s.isGenerating) == s
    ensures r.1.userVibe == s.userVibe && r.1.tripPlan == s.tripPlan
  {
    (s.(isGenerating := true), TripCall(s.userVibe, s.tripPlan))
  }

  /** `handleGenerate` after its `await`: on success store the recommendation
      and show the results; on failure keep both; lower the flag either way. */
  function SettleGenerate(s: Session, outcome: Settlement<TripRecommendation>): (r: Session)
    ensures !r.isGenerating
    ensures outcome.Resolved? ==> r.recommendation == Some(outcome.value) && r.currentStep == ResultsStep
    ensures outcome.Rejected? ==> r.recommendation == s.recommendation && r.currentStep == s.currentStep
    ensures r.(isGenerating := s.isGenerating, recommendation := s.recommendation, currentStep := s.currentStep) == s
  {
    var s' := match outcome
      case Resolved(result) => s.(recommendation := Some(result), currentStep := ResultsStep)
      case Rejected => s;
    s'.(isGenerating := false)
  }

  /** The vibe a packing request is parameterised with. */
  function PrimaryVibe(vibes: seq<string>): (v: string)
    ensures vibes != [] ==> v == vibes[0]
    ensures vibes == [] ==> v == FallbackVibe
  {
    if |vibes| > 0 then vibes[0] else FallbackVibe
  }

  /** `handleGeneratePacking` up to its `await`: raise the packing flag and send
      the plan's destination, dates and origin, the primary vibe and the profile. */
  function IssueGeneratePacking(s: Session): (r: (Session, PackingCall))
    ensures r.0.isGeneratingPacking
    ensures r.0.(isGeneratingPacking := s.isGeneratingPacking) == s
    ensures r.1.destination == s.tripPlan.destination
    ensures r.1.startDate == s.tripPlan.startDate && r.1.endDate == s.tripPlan.endDate
    ensures r.1.fromLocation == s.tripPlan.fromLocation && r.1.userVibe == s.userVibe
    ensures r.1.primaryVibe == PrimaryVibe(s.tripPlan.vibes)
  {
    var t := s.tripPlan;
    (s.(isGeneratingPacking := true),
     PackingCall(t.destination, t.startDate, t.endDate, PrimaryVibe(t.vibes), s.userVibe, t.fromLocation))
  }

  /** `handleGeneratePacking` after its `await`, as written: on success store the
      list and show it, whatever the session looks like by then. */
  function SettleGeneratePacking(s: Session, outcome: Settlement<PackingRecommendation>): (r: Session)
    ensures !r.isGeneratingPacking
    ensures outcome.Resolved? ==> r.packingRecommendation == Some(outcome.value) && r.currentStep == PackingStep
    ensures outcome.Rejected? ==> r.packingRecommendation == s.packingRecommendation && r.currentStep == s.currentStep
    ensures r.(isGeneratingPacking := s.isGeneratingPacking, packingRecommendation := s.packingRecommendation,
               currentStep := s.currentStep) == s
  {
    var s' := match outcome
      case Resolved(result) => s.(packingRecommendation := Some(result), currentStep := PackingStep)
      case Rejected => s;
    s'.(isGeneratingPacking := false)
  }

  /** The corrected settlement: a packing list that arrives after the session
      lost its trip recommendation (it was started over) is dropped, so the
      packing screen is only entered on top of a results screen. */
  function SettleGeneratePackingGuarded(s: Session, outcome: Settlement<PackingRecommendation>): (r: Session)
    ensures !r.isGeneratingPacking
    ensures outcome.Resolved? && s.recommendation.Some? ==>
              r.packingRecommendation == Some(outcome.value) && r.currentStep == PackingStep
    ensures outcome.Rejected? || s.recommendation.None? ==>
              r.packingRecommendation == s.packingRecommendation && r.currentStep == s.currentStep
    ensures r.(isGeneratingPacking := s.isGeneratingPacking, packingRecommendation := s.packingRecommendation,
               currentStep := s.currentStep) == s
  {
    if s.recommendation.Some? then SettleGeneratePacking(s, outcome)
    else s.(isGeneratingPacking := false)
  }

  /** `handleStartOver`: back to the first step with the default profile and
      plan and no generated artifacts; the in-flight flags are left alone. */
  function HandleStartOver(s: Session, defaultFromLocation: string): (r: Session)
    ensures r.currentStep == PersonaStep
    ensures r.recommendation.None? && r.packingRecommendation.None?
    ensures r.isGenerating == s.isGenerating && r.isGeneratingPacking == s.isGeneratingPacking
  {
    Session(PersonaStep, s.isGenerating,
            UserVibe(0, "male", "beaches", None),
            TripPlan("", defaultFromLocation, None, None, "solo", []),
            None, None, s.isGeneratingPacking)
  }

  /** The step components of the page. */
  datatype Screen = PersonaSelectionScreen | StepOneScreen | StepTwoScreen | ResultsScreen | PackingScreen

  /** Which step component is on the page; `None` is a blank page. */
  function Rendered(s: Session): (r: Option<Screen>)
    ensures r == Some(PersonaSelectionScreen) <==> s.currentStep == PersonaStep
    ensures r == Some(StepOneScreen) <==> s.currentStep == VibeStep
    ensures r == Some(StepTwoScreen) <==> s.currentStep == PlanningStep
    ensures r == Some(ResultsScreen) <==> s.currentStep == ResultsStep && s.recommendation.Some?
    ensures r == Some(PackingScreen) <==> s.currentStep == PackingStep && s.packingRecommendation.Some?
    ensures r.None? <==>
              || (s.currentStep == ResultsStep && s.recommendation.None?)
              || (s.currentStep == PackingStep && s.packingRecommendation.None?)
  {
    match s.currentStep
    case PersonaStep => Some(PersonaSelectionScreen)
    case VibeStep => Some(StepOneScreen)
    case PlanningStep => Some(StepTwoScreen)
    case ResultsStep => if s.recommendation.Some? then Some(ResultsScreen) else None
    case PackingStep => if s.packingRecommendation.Some? then Some(PackingScreen) else None
  }

  /** Starting over from any session yields the initial session, except for
      the two in-flight flags, which keep their values. */
  lemma StartOverRestoresInitial(s: Session, defaultFromLocation: string)
    ensures HandleStartOver(s, defaultFromLocation)
         == Initial(defaultFromLocation).(isGenerating := s.isGenerating,
                                          isGeneratingPacking := s.isGeneratingPacking)
    ensures HandleStartOver(HandleStartOver(s, defaultFromLocation), defaultFromLocation)
         == HandleStartOver(s, defaultFromLocation)
  {
  }

  /** The persona handler is the merge of the one-key update `{ persona }`. */
  lemma PersonaSelectIsMerge(s: Session, persona: PersonaId)
    ensures HandlePersonaSelect(s, persona) == UpdateUserVibe(s, NoVibeChange.(persona := Some(Some(persona))))
  {
  }

  /** The primary vibe is the first vibe ever listed: it is one of the plan's
      vibes when there are any, and adding vibes later never changes it. */
  lemma PrimaryVibeIsFirstListed(vibes: seq<string>, later: seq<string>)
    ensures vibes != [] ==> PrimaryVibe(vibes) in vibes && PrimaryVibe(vibes + later) == PrimaryVibe(vibes)
    ensures PrimaryVibe(vibes) == FallbackVibe <==> vibes == [] || vibes[0] == FallbackVibe
    ensures PrimaryVibe(["relax", "adventure"]) == "relax"
  {
    if vibes != [] {
      assert (vibes + later)[0] == vibes[0];
    }
  }
}
