/** The vibe step: the inputs that write into the profile, the "complete"
    predicate that enables the continue button, the error lookup, and the
    validation gate in front of `onNext`. */
module StepOne {
  import opened Wrappers
  import opened Types
  import JsNumber

  /** The gender buttons, in display order. */
  const GenderOptions: seq<string> := ["male", "female", "other"]

  /** A destination card: its id and its label (image and icon are left out). */
  datatype DestinationOption = DestinationOption(id: string, name: string)

  /** The destination cards, in display order. */
  const DestinationTypes: seq<DestinationOption> := [
    DestinationOption("beaches", "Beaches"),
    DestinationOption("mountains", "Mountains"),
    DestinationOption("cities", "Cities"),
    DestinationOption("countryside", "Countryside"),
    DestinationOption("desert", "Desert"),
    DestinationOption("islands", "Islands")
  ]

  /** `id` is the id of one of the destination cards. */
  predicate IsDestinationId(id: string)
  {
    exists k :: 0 <= k < |DestinationTypes| && DestinationTypes[k].id == id
  }

  /** The gender and destination of the profile are values the vibe step can write. */
  predicate InDomain(v: UserVibe)
  {
    v.gender in GenderOptions && IsDestinationId(v.preferredDestinationType)
  }

  /** `errors.find(error => error.field === field)`: the first error on `field`. */
  function GetError(errors: seq<ValidationError>, field: string): (r: Option<ValidationError>)
    ensures r.None? <==> forall i :: 0 <= i < |errors| ==> errors[i].field != field
    ensures r.Some? ==> exists i :: 0 <= i < |errors| && errors[i] == r.value && r.value.field == field
                                  && forall j :: 0 <= j < i ==> errors[j].field != field
    decreases |errors|
  {
    if errors == [] then None
    else if errors[0].field == field then Some(errors[0])
    else
      var rest := GetError(errors[1..], field);
      assert forall j :: 1 <= j < |errors| ==> errors[j] == errors[1..][j - 1];
      rest
  }

  /** The `disabled={!isComplete}` condition of the continue button, with the
      JavaScript truthiness of the two strings. */
  predicate IsComplete(v: UserVibe)
  {
    v.age > 0 && v.gender != "" && v.preferredDestinationType != ""
  }

  /** What `handleNext` leaves behind: the errors it stored and whether it called `onNext`. */
  datatype NextOutcome = NextOutcome(errors: seq<ValidationError>, advance: bool)

  /** `handleNext`: store the validator's errors, and advance exactly when it
      reports the profile valid. */
  function HandleNext(validate: UserVibe -> Validation, userVibe: UserVibe): (r: NextOutcome)
    ensures r.errors == validate(userVibe).errors
    ensures r.advance <==> validate(userVibe).isValid
  {
    var validation := validate(userVibe);
    NextOutcome(validation.errors, validation.isValid)
  }

  /** `parseInt(text) || 0`: NaN and zero both become 0. */
  function AgeFromInput(text: string): (age: int)
    ensures JsNumber.ParseInt(text).None? ==> age == 0
    ensures JsNumber.ParseInt(text).Some? ==> age == JsNumber.ParseInt(text).value
  {
    JsNumber.ParseInt(text).GetOr(0)
  }

  /** `userVibe.age || ''`: the text shown in the age box. */
  function AgeDisplay(age: int): string
  {
    if age == 0 then "" else JsNumber.IntToDecimal(age)
  }

  /** The update sent when the age box changes. */
  function AgeChange(text: string): (r: UserVibePatch)
    ensures r.age == Some(AgeFromInput(text))
    ensures r.gender.None? && r.preferredDestinationType.None? && r.persona.None?
  {
    NoVibeChange.(age := Some(AgeFromInput(text)))
  }

  /** The update sent by the gender button at position `k`. */
  function GenderClick(k: nat): (r: UserVibePatch)
    requires k < |GenderOptions|
    ensures r.gender.Some? && r.gender.value in {"male", "female", "other"}
    ensures r.age.None? && r.preferredDestinationType.None? && r.persona.None?
  {
    NoVibeChange.(gender := Some(GenderOptions[k]))
  }

  /** The update sent by the destination card at position `k`. */
  function DestinationClick(k: nat): (r: UserVibePatch)
    requires k < |DestinationTypes|
    ensures r.preferredDestinationType.Some?
    ensures r.preferredDestinationType.value in {"beaches", "mountains", "cities", "countryside", "desert", "islands"}
    ensures r.age.None? && r.gender.None? && r.persona.None?
  {
    NoVibeChange.(preferredDestinationType := Some(DestinationTypes[k].id))
  }

  /** The destination ids are exactly the six listed ones. */
  lemma DestinationIds(id: string)
    ensures IsDestinationId(id) <==> id in {"beaches", "mountains", "cities", "countryside", "desert", "islands"}
  {
    if id == "beaches" { assert DestinationTypes[0].id == id; }
    if id == "mountains" { assert DestinationTypes[1].id == id; }
    if id == "cities" { assert DestinationTypes[2].id == id; }
    if id == "countryside" { assert DestinationTypes[3].id == id; }
    if id == "desert" { assert DestinationTypes[4].id == id; }
    if id == "islands" { assert DestinationTypes[5].id == id; }
  }

  /** The text shown for an age reads back as that age: an empty box stands for 0. */
  lemma AgeInputRoundTrip(age: int)
    ensures AgeFromInput(AgeDisplay(age)) == age
  {
    if age != 0 {
      JsNumber.ParseIntReadsInt(age);
    }
  }

  /** Text with no leading number (empty, blank, `"abc"`) stores age 0. */
  lemma NonNumericAgeIsZero(text: string)
    requires var t := JsNumber.TrimStart(text);
             t == [] || (!JsNumber.IsDigit(t[0], JsNumber.Decimal) && t[0] != '-' && t[0] != '+')
    ensures AgeFromInput(text) == 0
  {
    JsNumber.ParseIntNoDigits(text);
  }

  /** Typing in the age box leaves gender and destination as they were. */
  lemma AgeChangeStaysInDomain(v: UserVibe, text: string)
    requires InDomain(v)
    ensures InDomain(MergeUserVibe(v, AgeChange(text)))
  {
    var w := MergeUserVibe(v, AgeChange(text));
    assert w.gender == v.gender && w.preferredDestinationType == v.preferredDestinationType;
  }

  /** A gender button writes one of the offered genders and nothing else. */
  lemma GenderClickStaysInDomain(v: UserVibe, g: nat)
    requires InDomain(v) && g < |GenderOptions|
    ensures InDomain(MergeUserVibe(v, GenderClick(g)))
  {
    var w := MergeUserVibe(v, GenderClick(g));
    assert w.gender == GenderOptions[g] && w.preferredDestinationType == v.preferredDestinationType;
  }

  /** A destination card writes one of the offered destination ids and nothing else. */
  lemma DestinationClickStaysInDomain(v: UserVibe, d: nat)
    requires InDomain(v) && d < |DestinationTypes|
    ensures InDomain(MergeUserVibe(v, DestinationClick(d)))
  {
    var w := MergeUserVibe(v, DestinationClick(d));
    assert w.gender == v.gender && DestinationTypes[d].id == w.preferredDestinationType;
  }

  /** On a profile the vibe step can produce, the button is enabled exactly when
      the age is positive; there is no upper bound. */
  lemma CompleteIffPositiveAge(v: UserVibe)
    requires InDomain(v)
    ensures IsComplete(v) <==> v.age > 0
  {
    var k :| 0 <= k < |DestinationTypes| && DestinationTypes[k].id == v.preferredDestinationType;
  }
}
