/** The records the wizard accumulates, and the spread-merge (`{ ...prev, ...updates }`)
    through which they change. */
module Types {
  import opened Wrappers

  /** The `UserPersona` union is defined outside this model; a persona is kept as its identifier. */
  type PersonaId = string

  /** A date picked in the planning step; its contents are never inspected by the core. */
  datatype CalendarDate = CalendarDate(iso: string)

  /** The profile collected by the persona and vibe steps. */
  datatype UserVibe = UserVibe(
    age: int,
    gender: string,
    preferredDestinationType: string,
    persona: Option<PersonaId>)

  /** The trip parameters collected by the planning step. */
  datatype TripPlan = TripPlan(
    destination: string,
    fromLocation: string,
    startDate: Option<CalendarDate>,
    endDate: Option<CalendarDate>,
    companions: string,
    vibes: seq<string>)

  /** The generated trip recommendation, consumed as-is. */
  datatype TripRecommendation = TripRecommendation(content: string)

  datatype PackingItem = PackingItem(item: string, tip: string)
  datatype ShopItem = ShopItem(name: string, description: string, price: string)

  /** The generated packing list. */
  datatype PackingRecommendation = PackingRecommendation(
    clothing: map<string, seq<PackingItem>>,
    essentials: seq<PackingItem>,
    shopTheLook: seq<ShopItem>)

  datatype ValidationError = ValidationError(field: string, message: string)

  /** What the profile validator returns. */
  datatype Validation = Validation(isValid: bool, errors: seq<ValidationError>)

  /** `Partial<UserVibe>`: a field is `Some` exactly when its key is present in the update object. */
  datatype UserVibePatch = UserVibePatch(
    age: Option<int>,
    gender: Option<string>,
    preferredDestinationType: Option<string>,
    persona: Option<Option<PersonaId>>)

  /** `Partial<TripPlan>`. */
  datatype TripPlanPatch = TripPlanPatch(
    destination: Option<string>,
    fromLocation: Option<string>,
    startDate: Option<Option<CalendarDate>>,
    endDate: Option<Option<CalendarDate>>,
    companions: Option<string>,
    vibes: Option<seq<string>>)

  /** The update object `{}`. */
  const NoVibeChange := UserVibePatch(None, None, None, None)
  const NoPlanChange := TripPlanPatch(None, None, None, None, None, None)

  /** The key of `later` wins when both objects carry it. */
  function Override<T>(earlier: Option<T>, later: Option<T>): Option<T>
  {
    if later.Some? then later else earlier
  }

  /** `{ ...prev, ...updates }` on a profile. */
  function MergeUserVibe(prev: UserVibe, updates: UserVibePatch): (r: UserVibe)
    ensures updates.age.Some? ==> r.age == updates.age.value
    ensures updates.age.None? ==> r.age == prev.age
    ensures updates.gender.Some? ==> r.gender == updates.gender.value
    ensures updates.gender.None? ==> r.gender == prev.gender
    ensures updates.preferredDestinationType.Some? ==> r.preferredDestinationType == updates.preferredDestinationType.value
    ensures updates.preferredDestinationType.None? ==> r.preferredDestinationType == prev.preferredDestinationType
    ensures updates.persona.Some? ==> r.persona == updates.persona.value
    ensures updates.persona.None? ==> r.persona == prev.persona
  {
    UserVibe(
      updates.age.GetOr(prev.age),
      updates.gender.GetOr(prev.gender),
      updates.preferredDestinationType.GetOr(prev.preferredDestinationType),
      updates.persona.GetOr(prev.persona))
  }

  /** `{ ...prev, ...updates }` on a trip plan; `vibes` is taken wholesale from the update. */
  function MergeTripPlan(prev: TripPlan, updates: TripPlanPatch): (r: TripPlan)
    ensures updates.destination.Some? ==> r.destination == updates.destination.value
    ensures updates.destination.None? ==> r.destination == prev.destination
    ensures updates.fromLocation.Some? ==> r.fromLocation == updates.fromLocation.value
    ensures updates.fromLocation.None? ==> r.fromLocation == prev.fromLocation
    ensures updates.startDate.Some? ==> r.startDate == updates.startDate.value
    ensures updates.startDate.None? ==> r.startDate == prev.startDate
    ensures updates.endDate.Some? ==> r.endDate == updates.endDate.value
    ensures updates.endDate.None? ==> r.endDate == prev.endDate
    ensures updates.companions.Some? ==> r.companions == updates.companions.value
    ensures updates.companions.None? ==> r.companions == prev.companions
    ensures updates.vibes.Some? ==> r.vibes == updates.vibes.value
    ensures updates.vibes.None? ==> r.vibes == prev.vibes
  {
    TripPlan(
      updates.destination.GetOr(prev.destination),
      updates.fromLocation.GetOr(prev.fromLocation),
      updates.startDate.GetOr(prev.startDate),
      updates.endDate.GetOr(prev.endDate),
      updates.companions.GetOr(prev.companions),
      updates.vibes.GetOr(prev.vibes))
  }

  /** `{ ...first, ...second }` on two profile updates. */
  function ThenVibe(first: UserVibePatch, second: UserVibePatch): UserVibePatch
  {
    UserVibePatch(
      Override(first.age, second.age),
      Override(first.gender, second.gender),
      Override(first.preferredDestinationType, second.preferredDestinationType),
      Override(first.persona, second.persona))
  }

  /** `{ ...first, ...second }` on two trip-plan updates. */
  function ThenPlan(first: TripPlanPatch, second: TripPlanPatch): TripPlanPatch
  {
    TripPlanPatch(
      Override(first.destination, second.destination),
      Override(first.fromLocation, second.fromLocation),
      Override(first.startDate, second.startDate),
      Override(first.endDate, second.endDate),
      Override(first.companions, second.companions),
      Override(first.vibes, second.vibes))
  }

  /** Two trip-plan updates that share no key. */
  predicate DisjointPlanPatches(p: TripPlanPatch, q: TripPlanPatch)
  {
    && (p.destination.None? || q.destination.None?)
    && (p.fromLocation.None? || q.fromLocation.None?)
    && (p.startDate.None? || q.startDate.None?)
    && (p.endDate.None? || q.endDate.None?)
    && (p.companions.None? || q.companions.None?)
    && (p.vibes.None? || q.vibes.None?)
  }

  /** An empty update leaves the profile as it was. */
  lemma MergeUserVibeEmpty(v: UserVibe)
    ensures MergeUserVibe(v, NoVibeChange) == v
  {
  }

  /** An empty update leaves the trip plan as it was. */
  lemma MergeTripPlanEmpty(t: TripPlan)
    ensures MergeTripPlan(t, NoPlanChange) == t
  {
  }

  /** Two successive profile merges are one merge of the combined update. */
  lemma MergeUserVibeSequential(v: UserVibe, p: UserVibePatch, q: UserVibePatch)
    ensures MergeUserVibe(MergeUserVibe(v, p), q) == MergeUserVibe(v, ThenVibe(p, q))
  {
  }

  /** Two successive trip-plan merges are one merge of the combined update;
      re-applying the same update changes nothing more. */
  lemma MergeTripPlanSequential(t: TripPlan, p: TripPlanPatch, q: TripPlanPatch)
    ensures MergeTripPlan(MergeTripPlan(t, p), q) == MergeTripPlan(t, ThenPlan(p, q))
    ensures MergeTripPlan(MergeTripPlan(t, p), p) == MergeTripPlan(t, p)
  {
  }

  /** Updates with disjoint keys do not erase each other, whatever their order. */
  lemma DisjointPlanUpdatesCommute(t: TripPlan, p: TripPlanPatch, q: TripPlanPatch)
    requires DisjointPlanPatches(p, q)
    ensures MergeTripPlan(MergeTripPlan(t, p), q) == MergeTripPlan(MergeTripPlan(t, q), p)
  {
  }

  /** Setting the destination and then the companions keeps both, and every other field. */
  lemma DestinationThenCompanions(t: TripPlan, destination: string, companions: string)
    ensures var r := MergeTripPlan(MergeTripPlan(t, NoPlanChange.(destination := Some(destination))),
                                   NoPlanChange.(companions := Some(companions)));
            && r.destination == destination && r.companions == companions
            && r.fromLocation == t.fromLocation && r.startDate == t.startDate
            && r.endDate == t.endDate && r.vibes == t.vibes
  {
  }
}
