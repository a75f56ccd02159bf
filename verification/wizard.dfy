/** The session as an event machine. UI gestures reach a handler only while
    the step component that receives it is on the page; settlements of
    outstanding generation calls may arrive at any moment and in any order.
    A state is reachable when some trace of events leads to it from the
    initial state. */
module Wizard {
  import opened Wrappers
  import opened Types
  import opened App
  import StepOne
  import JsNumber

  /** What a session is constructed with: the display name of the default
      origin, and the profile validator, whose rules are not part of this model. */
  datatype Config = Config(defaultFromLocation: string, validate: UserVibe -> Validation)

  /** Which settlement of the packing call the machine runs: the code as
      written, or the corrected one. */
  datatype Build = AsWritten | Corrected

  /** The session, the vibe step's own error list (kept only while that step
      is mounted), and the generation calls still outstanding, oldest first. */
  datatype Machine = Machine(
    session: Session,
    stepOneErrors: seq<ValidationError>,
    tripCalls: seq<TripCall>,
    packingCalls: seq<PackingCall>)

  datatype Event =
    | SelectPersona(persona: PersonaId)
    | PersonaNext
    | EnterAge(text: string)
    | ChooseGender(option: nat)
    | ChooseDestination(card: nat)
    | VibeContinue
    | VibeBack
    | EditPlan(updates: TripPlanPatch)
    | PlanningBack
    | Generate
    | TripSettled(call: nat, trip: Settlement<TripRecommendation>)
    | GeneratePacking
    | PackingSettled(call: nat, packing: Settlement<PackingRecommendation>)
    | StartOver
    | PackingBack

  function Init(cfg: Config): Machine
  {
    Machine(Initial(cfg.defaultFromLocation), [], [], [])
  }

  /** Whether the event can happen: a gesture needs its component on the page
      (and the continue button needs `isComplete`); a settlement needs its call
      to be outstanding. */
  predicate Enabled(m: Machine, e: Event)
  {
    var screen := Rendered(m.session);
    match e
    case SelectPersona(_) => screen == Some(PersonaSelectionScreen)
    case PersonaNext => screen == Some(PersonaSelectionScreen)
    case EnterAge(_) => screen == Some(StepOneScreen)
    case ChooseGender(k) => screen == Some(StepOneScreen) && k < |StepOne.GenderOptions|
    case ChooseDestination(k) => screen == Some(StepOneScreen) && k < |StepOne.DestinationTypes|
    case VibeContinue => screen == Some(StepOneScreen) && StepOne.IsComplete(m.session.userVibe)
    case VibeBack => screen == Some(StepOneScreen)
    case EditPlan(_) => screen == Some(StepTwoScreen)
    case PlanningBack => screen == Some(StepTwoScreen)
    case Generate => screen == Some(StepTwoScreen)
    case TripSettled(i, _) => i < |m.tripCalls|
    case GeneratePacking => screen == Some(ResultsScreen)
    case PackingSettled(i, _) => i < |m.packingCalls|
    case StartOver => screen == Some(ResultsScreen)
    case PackingBack => screen == Some(PackingScreen)
  }

  /** The sequence without its `i`-th element. */
  function RemoveAt<T>(s: seq<T>, i: nat): (r: seq<T>)
    requires i < |s|
    ensures |r| == |s| - 1
    ensures forall j :: 0 <= j < i ==> r[j] == s[j]
    ensures forall j :: i <= j < |r| ==> r[j] == s[j + 1]
  {
    s[..i] + s[i + 1..]
  }

  /** Install a new session; the vibe step's errors survive only if it stays mounted. */
  function WithSession(m: Machine, s: Session): (r: Machine)
    ensures r.session == s && r.tripCalls == m.tripCalls && r.packingCalls == m.packingCalls
    ensures m.session.currentStep == VibeStep && s.currentStep == VibeStep ==> r.stepOneErrors == m.stepOneErrors
    ensures !(m.session.currentStep == VibeStep && s.currentStep == VibeStep) ==> r.stepOneErrors == []
  {
    var keep := m.session.currentStep == VibeStep && s.currentStep == VibeStep;
    m.(session := s, stepOneErrors := if keep then m.stepOneErrors else [])
  }

  /** The packing settlement the build runs. */
  function SettlePacking(build: Build, s: Session, outcome: Settlement<PackingRecommendation>): Session
  {
    match build
    case AsWritten => SettleGeneratePacking(s, outcome)
    case Corrected => SettleGeneratePackingGuarded(s, outcome)
  }

  /** One event; an event that cannot happen leaves the machine as it is. */
  function Next(cfg: Config, build: Build, m: Machine, e: Event): Machine
  {
    if !Enabled(m, e) then m
    else
      var s := m.session;
      match e
      case SelectPersona(p) => WithSession(m, HandlePersonaSelect(s, p))
      case PersonaNext => WithSession(m, HandlePersonaNext(s))
      case EnterAge(text) => WithSession(m, UpdateUserVibe(s, StepOne.AgeChange(text)))
      case ChooseGender(k) => WithSession(m, UpdateUserVibe(s, StepOne.GenderClick(k)))
      case ChooseDestination(k) => WithSession(m, UpdateUserVibe(s, StepOne.DestinationClick(k)))
      case VibeContinue =>
        var gate := StepOne.HandleNext(cfg.validate, s.userVibe);
        WithSession(m.(stepOneErrors := gate.errors), if gate.advance then HandleVibeNext(s) else s)
      case VibeBack => WithSession(m, HandleVibeBack(s))
      case EditPlan(updates) => WithSession(m, UpdateTripPlan(s, updates))
      case PlanningBack => WithSession(m, HandlePlanningBack(s))
      case Generate =>
        var issued := IssueGenerate(s);
        WithSession(m, issued.0).(tripCalls := m.tripCalls + [issued.1])
      case TripSettled(i, outcome) =>
        WithSession(m, SettleGenerate(s, outcome)).(tripCalls := RemoveAt(m.tripCalls, i))
      case GeneratePacking =>
        var issued := IssueGeneratePacking(s);
        WithSession(m, issued.0).(packingCalls := m.packingCalls + [issued.1])
      case PackingSettled(i, outcome) =>
        WithSession(m, SettlePacking(build, s, outcome)).(packingCalls := RemoveAt(m.packingCalls, i))
      case StartOver => WithSession(m, HandleStartOver(s, cfg.defaultFromLocation))
      case PackingBack => WithSession(m, HandleBackFromPacking(s))
  }

  /** The machine after a trace of events, first event first. */
  function Run(cfg: Config, build: Build, m: Machine, trace: seq<Event>): Machine
    decreases |trace|
  {
    if trace == [] then m else Run(cfg, build, Next(cfg, build, m, trace[0]), trace[1..])
  }

  /** The facts every reachable state keeps. The last one holds only for the
      corrected build. */
  predicate Invariant(build: Build, m: Machine)
  {
    var s := m.session;
    && (s.isGenerating ==> |m.tripCalls| > 0)
    && (s.isGeneratingPacking ==> |m.packingCalls| > 0)
    && (m.stepOneErrors != [] ==> s.currentStep == VibeStep)
    && StepOne.InDomain(s.userVibe)
    && (s.currentStep == PackingStep ==> s.packingRecommendation.Some?)
    && (build == Corrected && (s.currentStep == ResultsStep || s.currentStep == PackingStep) ==> s.recommendation.Some?)
  }

  lemma DefaultsInDomain()
    ensures StepOne.InDomain(DefaultUserVibe)
  {
    assert StepOne.DestinationTypes[0].id == "beaches";
  }

  lemma InitSatisfiesInvariant(cfg: Config, build: Build)
    ensures Invariant(build, Init(cfg))
  {
    DefaultsInDomain();
  }

  /** Each in-flight flag stays backed by an outstanding call of its kind. */
  lemma NextKeepsFlagsBacked(cfg: Config, build: Build, m: Machine, e: Event)
    requires Invariant(build, m)
    ensures var r := Next(cfg, build, m, e);
            && (r.session.isGenerating ==> |r.tripCalls| > 0)
            && (r.session.isGeneratingPacking ==> |r.packingCalls| > 0)
  {
  }

  /** The vibe step's errors stay confined to that step, and gender and
      destination stay among the offered values. */
  lemma NextKeepsProfile(cfg: Config, build: Build, m: Machine, e: Event)
    requires Invariant(build, m)
    ensures var r := Next(cfg, build, m, e);
            && (r.stepOneErrors != [] ==> r.session.currentStep == VibeStep)
            && StepOne.InDomain(r.session.userVibe)
  {
    if Enabled(m, e) {
      var s := m.session;
      match e
      case EnterAge(text) =>
        StepOne.AgeChangeStaysInDomain(s.userVibe, text);
      case ChooseGender(k) =>
        StepOne.GenderClickStaysInDomain(s.userVibe, k);
      case ChooseDestination(k) =>
        StepOne.DestinationClickStaysInDomain(s.userVibe, k);
      case StartOver =>
        DefaultsInDomain();
      case _ =>
    }
  }

  /** The packing step keeps its list and, in the corrected build, the results
      and packing steps keep their trip recommendation. */
  lemma NextKeepsArtifacts(cfg: Config, build: Build, m: Machine, e: Event)
    requires Invariant(build, m)
    ensures var s := Next(cfg, build, m, e).session;
            && (s.currentStep == PackingStep ==> s.packingRecommendation.Some?)
            && (build == Corrected && (s.currentStep == ResultsStep || s.currentStep == PackingStep) ==> s.recommendation.Some?)
  {
  }

  /** Every event keeps the invariant. */
  lemma NextPreservesInvariant(cfg: Config, build: Build, m: Machine, e: Event)
    requires Invariant(build, m)
    ensures Invariant(build, Next(cfg, build, m, e))
  {
    NextKeepsFlagsBacked(cfg, build, m, e);
    NextKeepsProfile(cfg, build, m, e);
    NextKeepsArtifacts(cfg, build, m, e);
  }

  /** Every trace keeps the invariant. */
  lemma {:induction false} RunPreservesInvariant(cfg: Config, build: Build, m: Machine, trace: seq<Event>)
    requires Invariant(build, m)
    ensures Invariant(build, Run(cfg, build, m, trace))
    decreases |trace|
  {
    if trace != [] {
      NextPreservesInvariant(cfg, build, m, trace[0]);
      RunPreservesInvariant(cfg, build, Next(cfg, build, m, trace[0]), trace[1..]);
    }
  }

  /** In every reachable state: an in-flight flag is up only while a call of its
      kind is outstanding, the vibe step's errors are shown only on that step,
      gender and destination hold offered values, and the packing step always has
      its list. */
  lemma ReachableInvariant(cfg: Config, build: Build, trace: seq<Event>)
    ensures Invariant(build, Run(cfg, build, Init(cfg), trace))
  {
    InitSatisfiesInvariant(cfg, build);
    RunPreservesInvariant(cfg, build, Init(cfg), trace);
  }

  /** In every reachable state the packing step shows a packing list, and the
      continue button of the vibe step is enabled exactly when the age is positive. */
  lemma ReachablePackingStepHasList(cfg: Config, build: Build, trace: seq<Event>)
    ensures var m := Run(cfg, build, Init(cfg), trace);
            && (m.session.currentStep == PackingStep ==> Rendered(m.session) == Some(PackingScreen))
            && (StepOne.IsComplete(m.session.userVibe) <==> m.session.userVibe.age > 0)
  {
    ReachableInvariant(cfg, build, trace);
    StepOne.CompleteIffPositiveAge(Run(cfg, build, Init(cfg), trace).session.userVibe);
  }

  /** With the corrected settlement the page is never blank: the results and
      packing steps are only ever shown with a trip recommendation present. */
  lemma CorrectedNeverBlank(cfg: Config, trace: seq<Event>)
    ensures var s := Run(cfg, Corrected, Init(cfg), trace).session;
            && Rendered(s).Some?
            && (s.currentStep == ResultsStep ==> s.recommendation.Some?)
            && (s.currentStep == PackingStep ==> s.recommendation.Some? && s.packingRecommendation.Some?)
  {
    ReachableInvariant(cfg, Corrected, trace);
  }

  /** The only ways onto the results step are a successful trip settlement and
      the back button of the packing step; a rejected or outstanding call never
      moves the step. */
  lemma EnteringResults(cfg: Config, build: Build, m: Machine, e: Event)
    requires m.session.currentStep != ResultsStep
    requires Next(cfg, build, m, e).session.currentStep == ResultsStep
    ensures (e.TripSettled? && e.trip.Resolved?) || e == PackingBack
  {
  }

  /** A rejected settlement changes neither the step nor either artifact, and
      lowers its flag. */
  lemma RejectedSettlementStays(cfg: Config, build: Build, m: Machine, i: nat)
    ensures i < |m.tripCalls| ==>
            var r := Next(cfg, build, m, TripSettled(i, Rejected));
            && r.session.currentStep == m.session.currentStep && !r.session.isGenerating
            && r.session.recommendation == m.session.recommendation
            && r.session.packingRecommendation == m.session.packingRecommendation
    ensures i < |m.packingCalls| ==>
            var r := Next(cfg, build, m, PackingSettled(i, Rejected));
            && r.session.currentStep == m.session.currentStep && !r.session.isGeneratingPacking
            && r.session.recommendation == m.session.recommendation
            && r.session.packingRecommendation == m.session.packingRecommendation
  {
  }

  /** The continue button of the vibe step: ignored while the profile is
      incomplete; otherwise it shows the validator's errors and moves on to
      planning exactly when the validator accepts the profile. */
  lemma VibeGate(cfg: Config, build: Build, m: Machine)
    requires m.session.currentStep == VibeStep
    ensures var r := Next(cfg, build, m, VibeContinue);
            var validation := cfg.validate(m.session.userVibe);
            && (!StepOne.IsComplete(m.session.userVibe) ==> r == m)
            && (StepOne.IsComplete(m.session.userVibe) ==>
                  && (r.session.currentStep == PlanningStep <==> validation.isValid)
                  && (!validation.isValid ==> r.session == m.session && r.stepOneErrors == validation.errors))
  {
  }

  /** Start over from the results screen: the initial session with the flags
      kept, no errors, and the outstanding calls left running. */
  lemma StartOverFromResults(cfg: Config, build: Build, m: Machine)
    requires Rendered(m.session) == Some(ResultsScreen)
    ensures var r := Next(cfg, build, m, StartOver);
            && r.session == Initial(cfg.defaultFromLocation).(isGenerating := m.session.isGenerating,
                                                              isGeneratingPacking := m.session.isGeneratingPacking)
            && r.stepOneErrors == [] && r.tripCalls == m.tripCalls && r.packingCalls == m.packingCalls
  {
    StartOverRestoresInitial(m.session, cfg.defaultFromLocation);
  }

  /** No duplicate-request guard: two clicks on generate send two requests,
      and the first settlement lowers the flag while the second is still
      outstanding. */
  lemma DoubleGenerate(cfg: Config, build: Build, m: Machine)
    requires Rendered(m.session) == Some(StepTwoScreen)
    ensures var m2 := Next(cfg, build, Next(cfg, build, m, Generate), Generate);
            && |m2.tripCalls| == |m.tripCalls| + 2
            && m2.tripCalls[|m.tripCalls|] == m2.tripCalls[|m.tripCalls| + 1]
               == TripCall(m.session.userVibe, m.session.tripPlan)
            && var m3 := Next(cfg, build, m2, TripSettled(|m.tripCalls|, Rejected));
               !m3.session.isGenerating && |m3.tripCalls| == |m.tripCalls| + 1
  {
  }

  lemma RunFirst(cfg: Config, build: Build, m: Machine, trace: seq<Event>)
    requires trace != []
    ensures Run(cfg, build, m, trace) == Run(cfg, build, Next(cfg, build, m, trace[0]), trace[1..])
  {
  }

  /** Running two traces one after the other is running their concatenation. */
  lemma {:induction false} RunAppend(cfg: Config, build: Build, m: Machine, first: seq<Event>, second: seq<Event>)
    ensures Run(cfg, build, m, first + second) == Run(cfg, build, Run(cfg, build, m, first), second)
    decreases |first|
  {
    if first == [] {
      assert first + second == second;
    } else {
      assert (first + second)[0] == first[0];
      assert (first + second)[1..] == first[1..] + second;
      RunAppend(cfg, build, Next(cfg, build, m, first[0]), first[1..], second);
    }
  }

  /** Type an age of 29 and continue to planning. */
  function ToPlanningTrace(): seq<Event>
  {
    [PersonaNext, EnterAge("29"), VibeContinue]
  }

  /** Generate a trip and receive it. */
  function GenerateTrace(trip: TripRecommendation): seq<Event>
  {
    [Generate, TripSettled(0, Resolved(trip))]
  }

  function ToResultsTrace(trip: TripRecommendation): seq<Event>
  {
    ToPlanningTrace() + GenerateTrace(trip)
  }

  /** Ask for a packing list, start over before it arrives, let it arrive, press back. */
  function StaleSettlementTrace(packing: PackingRecommendation): seq<Event>
  {
    [GeneratePacking, StartOver, PackingSettled(0, Resolved(packing)), PackingBack]
  }

  /** The text `"29"` stores age 29. */
  lemma TypedAge()
    ensures StepOne.AgeFromInput("29") == 29
  {
    assert JsNumber.NatToDecimal(29) == "29";
    StepOne.AgeInputRoundTrip(29);
  }

  /** Only the generate buttons and the settlements touch the outstanding calls. */
  lemma GesturesKeepCalls(cfg: Config, build: Build, m: Machine, e: Event)
    requires !e.Generate? && !e.GeneratePacking? && !e.TripSettled? && !e.PackingSettled?
    ensures Next(cfg, build, m, e).tripCalls == m.tripCalls
    ensures Next(cfg, build, m, e).packingCalls == m.packingCalls
  {
  }

  /** Typing in the age box stores the age the text reads as and keeps the
      rest of the profile and the step. */
  lemma EnterAgeStores(cfg: Config, build: Build, m: Machine, text: string)
    requires Rendered(m.session) == Some(StepOneScreen)
    ensures var r := Next(cfg, build, m, EnterAge(text));
            && r.session.userVibe == m.session.userVibe.(age := StepOne.AgeFromInput(text))
            && r.session.currentStep == VibeStep
  {
  }

  /** The next button of the persona step opens the vibe step with the profile as it is. */
  lemma PersonaNextOpensVibe(cfg: Config, build: Build, m: Machine)
    requires Rendered(m.session) == Some(PersonaSelectionScreen)
    ensures var r := Next(cfg, build, m, PersonaNext);
            Rendered(r.session) == Some(StepOneScreen) && r.session.userVibe == m.session.userVibe
  {
  }

  /** A complete profile that the validator accepts moves the vibe step on to planning. */
  lemma VibeContinueAdvances(cfg: Config, build: Build, m: Machine)
    requires Rendered(m.session) == Some(StepOneScreen)
    requires StepOne.IsComplete(m.session.userVibe) && cfg.validate(m.session.userVibe).isValid
    ensures Rendered(Next(cfg, build, m, VibeContinue).session) == Some(StepTwoScreen)
  {
  }

  /** When the validator accepts the profile, typing 29 and continuing reaches planning. */
  lemma ReachPlanning(cfg: Config, build: Build)
    requires cfg.validate(UserVibe(29, "male", "beaches", None)).isValid
    ensures var m := Run(cfg, build, Init(cfg), ToPlanningTrace());
            Rendered(m.session) == Some(StepTwoScreen) && m.tripCalls == [] && m.packingCalls == []
  {
    var t := ToPlanningTrace();
    var m0 := Init(cfg);
    var m1 := Next(cfg, build, m0, t[0]);
    PersonaNextOpensVibe(cfg, build, m0);
    GesturesKeepCalls(cfg, build, m0, t[0]);
    var m2 := Next(cfg, build, m1, t[1]);
    EnterAgeStores(cfg, build, m1, "29");
    TypedAge();
    GesturesKeepCalls(cfg, build, m1, t[1]);
    var m3 := Next(cfg, build, m2, t[2]);
    VibeContinueAdvances(cfg, build, m2);
    GesturesKeepCalls(cfg, build, m2, t[2]);
    RunFirst(cfg, build, m0, t);
    RunFirst(cfg, build, m1, t[1..]);
    RunFirst(cfg, build, m2, t[2..]);
    assert t[3..] == [];
  }

  /** From the planning screen with no trip call outstanding, generating and
      receiving a trip shows the results screen. */
  lemma GenerateReachesResults(cfg: Config, build: Build, m: Machine, trip: TripRecommendation)
    requires Rendered(m.session) == Some(StepTwoScreen) && m.tripCalls == []
    ensures var r := Run(cfg, build, m, GenerateTrace(trip));
            && Rendered(r.session) == Some(ResultsScreen) && r.session.recommendation == Some(trip)
            && r.tripCalls == [] && r.packingCalls == m.packingCalls
  {
    var t := GenerateTrace(trip);
    var m1 := Next(cfg, build, m, t[0]);
    assert |m1.tripCalls| == 1;
    RunFirst(cfg, build, m, t);
    RunFirst(cfg, build, m1, t[1..]);
    assert t[2..] == [];
  }

  /** When the validator accepts the profile, the results screen is reachable
      with no call outstanding. */
  lemma ReachResults(cfg: Config, build: Build, trip: TripRecommendation)
    requires cfg.validate(UserVibe(29, "male", "beaches", None)).isValid
    ensures var m := Run(cfg, build, Init(cfg), ToResultsTrace(trip));
            Rendered(m.session) == Some(ResultsScreen) && m.tripCalls == [] && m.packingCalls == []
  {
    ReachPlanning(cfg, build);
    GenerateReachesResults(cfg, build, Run(cfg, build, Init(cfg), ToPlanningTrace()), trip);
    RunAppend(cfg, build, Init(cfg), ToPlanningTrace(), GenerateTrace(trip));
  }

  /** Asking for a packing list from the results screen sends one more call
      and stays on that screen. */
  lemma IssuePackingFromResults(cfg: Config, build: Build, m: Machine)
    requires Rendered(m.session) == Some(ResultsScreen)
    ensures var r := Next(cfg, build, m, GeneratePacking);
            && Rendered(r.session) == Some(ResultsScreen)
            && |r.packingCalls| == |m.packingCalls| + 1 && r.tripCalls == m.tripCalls
  {
  }

  /** As written, a packing list that settles opens the packing step whether
      or not a trip recommendation is still there. */
  lemma AsWrittenPackingOpensPackingStep(cfg: Config, m: Machine, i: nat, packing: PackingRecommendation)
    requires i < |m.packingCalls|
    ensures var r := Next(cfg, AsWritten, m, PackingSettled(i, Resolved(packing)));
            && Rendered(r.session) == Some(PackingScreen)
            && r.session.recommendation == m.session.recommendation
            && |r.packingCalls| == |m.packingCalls| - 1 && r.tripCalls == m.tripCalls
  {
  }

  /** The back button of the packing step returns to the results step with the
      trip recommendation as it is. */
  lemma PackingBackToResults(cfg: Config, build: Build, m: Machine)
    requires Rendered(m.session) == Some(PackingScreen)
    ensures var r := Next(cfg, build, m, PackingBack);
            && r.session.currentStep == ResultsStep && r.session.recommendation == m.session.recommendation
            && r.packingCalls == m.packingCalls && r.tripCalls == m.tripCalls
  {
  }

  /** As written, from any results screen with no packing call outstanding, a
      packing list that settles after a start-over still opens the packing
      step, and its back button lands on the results step with no
      recommendation: a blank page. */
  lemma StaleSettlementBlanksResults(cfg: Config, m: Machine, packing: PackingRecommendation)
    requires Rendered(m.session) == Some(ResultsScreen) && m.packingCalls == []
    ensures var r := Run(cfg, AsWritten, m, StaleSettlementTrace(packing));
            && r.session.currentStep == ResultsStep && r.session.recommendation.None?
            && Rendered(r.session).None? && r.tripCalls == m.tripCalls && r.packingCalls == []
  {
    var t := StaleSettlementTrace(packing);
    var m1 := Next(cfg, AsWritten, m, t[0]);
    IssuePackingFromResults(cfg, AsWritten, m);
    var m2 := Next(cfg, AsWritten, m1, t[1]);
    StartOverFromResults(cfg, AsWritten, m1);
    var m3 := Next(cfg, AsWritten, m2, t[2]);
    AsWrittenPackingOpensPackingStep(cfg, m2, 0, packing);
    var m4 := Next(cfg, AsWritten, m3, t[3]);
    PackingBackToResults(cfg, AsWritten, m3);
    RunFirst(cfg, AsWritten, m, t);
    RunFirst(cfg, AsWritten, m1, t[1..]);
    RunFirst(cfg, AsWritten, m2, t[2..]);
    RunFirst(cfg, AsWritten, m3, t[3..]);
    assert t[4..] == [];
  }

  /** A blank page with no call outstanding is final: no event changes the machine. */
  lemma BlankIsStuck(cfg: Config, build: Build, m: Machine)
    requires Rendered(m.session).None? && m.tripCalls == [] && m.packingCalls == []
    ensures forall e :: Next(cfg, build, m, e) == m
  {
  }

  /** As written, the results step is reachable without a recommendation, and
      the session is then stuck: no event changes it any more. */
  lemma AsWrittenBlankResults(cfg: Config, trip: TripRecommendation, packing: PackingRecommendation)
    requires cfg.validate(UserVibe(29, "male", "beaches", None)).isValid
    ensures var m := Run(cfg, AsWritten, Init(cfg), ToResultsTrace(trip) + StaleSettlementTrace(packing));
            && m.session.currentStep == ResultsStep && m.session.recommendation.None?
            && Rendered(m.session).None?
            && forall e :: Next(cfg, AsWritten, m, e) == m
  {
    ReachResults(cfg, AsWritten, trip);
    var results := Run(cfg, AsWritten, Init(cfg), ToResultsTrace(trip));
    StaleSettlementBlanksResults(cfg, results, packing);
    RunAppend(cfg, AsWritten, Init(cfg), ToResultsTrace(trip), StaleSettlementTrace(packing));
    BlankIsStuck(cfg, AsWritten, Run(cfg, AsWritten, results, StaleSettlementTrace(packing)));
  }
}
