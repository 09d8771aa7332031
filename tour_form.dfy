/** The admin tour form (app/components/tours/TourForm.tsx): its validation
    schema, its initial values, the fields it lets the user edit, the choice
    between creating and updating a tour, the `isSubmitting` flag, and the
    option lists it builds from the species reference data.

    The request itself, the toasts, the redirect and the cache invalidation
    are effects and are not modelled; `Submit` returns the request the
    mutation would send. */
module TourForm {
  import opened JsValues
  import opened MarineLifeTypes
  import opened MultiSelect

  // ---------------------------------------------------------------------
  // The schema
  // ---------------------------------------------------------------------

  const Difficulties: seq<string> := ["EASY", "MODERATE", "CHALLENGING", "EXTREME"]

  /** The form values as the schema receives them. `None` is a missing
      (undefined) value; for the numeric fields it also stands for the NaN
      that `z.coerce.number()` makes of a value that is not a number. */
  datatype FormValues = FormValues(
    name: Option<string>,
    description: Option<string>,
    difficulty: Option<string>,
    duration: Option<real>,
    marineLifeIds: Option<seq<string>>,
    conservationInfo: Option<string>,
    tideDependency: Option<bool>,
    departurePort: Option<string>,
    marineArea: Option<string>,
    seasons: Option<seq<string>>,
    expeditionType: Option<string>,
    maxParticipants: Option<real>,
    basePrice: Option<real>,
    requiredEquipment: Option<seq<string>>,
    safetyBriefing: Option<string>,
    images: Option<seq<string>>,
    published: Option<bool>,
    guideId: Option<string>,
    categoryId: Option<string>,
    startLocationId: Option<string>,
    endLocationId: Option<string>)

  /** `z.string().min(n)` */
  predicate MinLength(v: Option<string>, n: nat) {
    v.Some? && |v.value| >= n
  }

  predicate IsInteger(x: real) {
    x == x.Floor as real
  }

  /** `z.coerce.number().int().positive()` */
  predicate PositiveInteger(v: Option<real>) {
    v.Some? && IsInteger(v.value) && v.value > 0.0
  }

  /** `z.coerce.number().nonnegative()` */
  predicate NonNegative(v: Option<real>) {
    v.Some? && v.value >= 0.0
  }

  /** `z.array(z.string()).min(1)` */
  predicate NonEmptyList(v: Option<seq<string>>) {
    v.Some? && |v.value| >= 1
  }

  /** The schema's fields, named as zod names them in an issue's path. */
  datatype Field =
    | Name | Description | Difficulty | Duration | MarineLifeIds | ConservationInfo
    | TideDependency | DeparturePort | MarineArea | Seasons | ExpeditionType
    | MaxParticipants | BasePrice | RequiredEquipment | SafetyBriefing | Images
    | Published | GuideId | CategoryId | StartLocationId | EndLocationId

  /** `[f]` when a field breaks its rule. */
  function Check(ok: bool, f: Field): seq<Field> {
    if ok then [] else [f]
  }

  /** The fields zod reports as failing, in schema order. The fields with
      `.optional()` or `.default(...)` accept a missing value. */
  function Issues(v: FormValues): seq<Field> {
    Check(MinLength(v.name, 3), Name)
    + Check(MinLength(v.description, 50), Description)
    + Check(v.difficulty.Some? && v.difficulty.value in Difficulties, Difficulty)
    + Check(PositiveInteger(v.duration), Duration)
    + Check(NonEmptyList(v.marineLifeIds), MarineLifeIds)
    + Check(MinLength(v.conservationInfo, 20), ConservationInfo)
    + Check(MinLength(v.departurePort, 2), DeparturePort)
    + Check(MinLength(v.marineArea, 2), MarineArea)
    + Check(NonEmptyList(v.seasons), Seasons)
    + Check(MinLength(v.expeditionType, 2), ExpeditionType)
    + Check(PositiveInteger(v.maxParticipants), MaxParticipants)
    + Check(NonNegative(v.basePrice), BasePrice)
    + Check(MinLength(v.startLocationId, 1), StartLocationId)
    + Check(MinLength(v.endLocationId, 1), EndLocationId)
  }

  datatype Validation = Accepted(values: FormValues) | Rejected(issues: seq<Field>)

  /** What the schema outputs for accepted values: the `.default(...)`
      fields filled in. */
  function WithDefaults(v: FormValues): FormValues {
    v.(tideDependency := Some(if v.tideDependency.Some? then v.tideDependency.value else false),
       requiredEquipment := Some(if v.requiredEquipment.Some? then v.requiredEquipment.value else []),
       images := Some(if v.images.Some? then v.images.value else []),
       published := Some(if v.published.Some? then v.published.value else false))
  }

  /** `tourFormSchema.safeParse(values)` */
  function Validate(v: FormValues): Validation {
    if Issues(v) == [] then Accepted(WithDefaults(v)) else Rejected(Issues(v))
  }

  /** The schema accepts exactly the values whose name has at least 3
      characters, description at least 50, difficulty one of the four levels,
      duration and maxParticipants positive integers, basePrice non-negative,
      marineLifeIds and seasons non-empty, conservationInfo at least 20
      characters, departurePort, marineArea and expeditionType at least 2, and
      non-empty start and end location ids. */
  lemma ValidateAcceptsExactly(v: FormValues)
    ensures Validate(v).Accepted? <==>
      && v.name.Some? && |v.name.value| >= 3
      && v.description.Some? && |v.description.value| >= 50
      && v.difficulty.Some? && v.difficulty.value in {"EASY", "MODERATE", "CHALLENGING", "EXTREME"}
      && v.duration.Some? && v.duration.value > 0.0 && v.duration.value == v.duration.value.Floor as real
      && v.marineLifeIds.Some? && v.marineLifeIds.value != []
      && v.conservationInfo.Some? && |v.conservationInfo.value| >= 20
      && v.departurePort.Some? && |v.departurePort.value| >= 2
      && v.marineArea.Some? && |v.marineArea.value| >= 2
      && v.seasons.Some? && v.seasons.value != []
      && v.expeditionType.Some? && |v.expeditionType.value| >= 2
      && v.maxParticipants.Some? && v.maxParticipants.value > 0.0
      && v.maxParticipants.value == v.maxParticipants.value.Floor as real
      && v.basePrice.Some? && v.basePrice.value >= 0.0
      && v.startLocationId.Some? && v.startLocationId.value != ""
      && v.endLocationId.Some? && v.endLocationId.value != ""
  {
  }

  /** A value without conservationInfo, or with one shorter than 20
      characters, is rejected with that field reported. */
  lemma ShortConservationInfoRejected(v: FormValues)
    requires !MinLength(v.conservationInfo, 20)
    ensures ConservationInfo in Issues(v)
    ensures Validate(v) == Rejected(Issues(v))
  {
  }

  /** Accepted values come back with the defaulted fields filled in and every
      other field untouched. */
  lemma AcceptedOutput(v: FormValues)
    requires Validate(v).Accepted?
    ensures var out := Validate(v).values;
      && out.tideDependency.Some? && out.requiredEquipment.Some? && out.images.Some? && out.published.Some?
      && (v.tideDependency.None? ==> out.tideDependency == Some(false))
      && (v.published.None? ==> out.published == Some(false))
      && (v.requiredEquipment.None? ==> out.requiredEquipment == Some([]))
      && (v.images.None? ==> out.images == Some([]))
      && out.(tideDependency := v.tideDependency, requiredEquipment := v.requiredEquipment,
              images := v.images, published := v.published) == v
  {
  }

  // ---------------------------------------------------------------------
  // Initial values and the editable fields
  // ---------------------------------------------------------------------

  /** The tour the edit page passes as `initialData`; a field is `None` when
      it is null or absent. */
  datatype InitialTour = InitialTour(
    id: string,
    name: Option<string>,
    description: Option<string>,
    difficulty: Option<string>,
    duration: Option<real>,
    marineLifeIds: Option<seq<string>>,
    conservationInfo: Option<string>,
    tideDependency: Option<bool>,
    departurePort: Option<string>,
    marineArea: Option<string>,
    seasons: Option<seq<string>>,
    expeditionType: Option<string>,
    maxParticipants: Option<real>,
    basePrice: Option<real>,
    requiredEquipment: Option<seq<string>>,
    safetyBriefing: Option<string>,
    images: Option<seq<string>>,
    published: Option<bool>,
    guideId: Option<string>,
    categoryId: Option<string>,
    startLocationId: Option<string>,
    endLocationId: Option<string>)

  /** `s || fallback` for a string that may be null or undefined. */
  function TextOr(s: Option<string>, fallback: string): string {
    if s.Some? && s.value != "" then s.value else fallback
  }

  /** `x || fallback` for a number. */
  function NumberOr(x: Option<real>, fallback: real): real {
    if x.Some? && x.value != 0.0 then x.value else fallback
  }

  /** `xs || []`: an array, even an empty one, is truthy. */
  function ListOr(xs: Option<seq<string>>): seq<string> {
    if xs.Some? then xs.value else []
  }

  /** `b ?? false` */
  function FlagOr(b: Option<bool>): bool {
    if b.Some? then b.value else false
  }

  /** `defaultValues` as written: it sets neither `conservationInfo` nor
      `departurePort`. */
  function DefaultValues(initialData: Option<InitialTour>): (v: FormValues)
    ensures v.conservationInfo.None? && v.departurePort.None?
  {
    if initialData.None? then
      FormValues(
        name := Some(""), description := Some(""), difficulty := Some("MODERATE"),
        duration := Some(4.0), marineLifeIds := Some([]), conservationInfo := None,
        tideDependency := Some(false), departurePort := None, marineArea := Some(""),
        seasons := Some([]), expeditionType := Some(""), maxParticipants := Some(10.0),
        basePrice := Some(0.0), requiredEquipment := Some([]), safetyBriefing := Some(""),
        images := Some([]), published := Some(false), guideId := Some(""), categoryId := Some(""),
        startLocationId := Some(""), endLocationId := Some(""))
    else
      var t := initialData.value;
      FormValues(
        name := Some(TextOr(t.name, "")),
        description := Some(TextOr(t.description, "")),
        difficulty := Some(TextOr(t.difficulty, "MODERATE")),
        duration := Some(NumberOr(t.duration, 4.0)),
        marineLifeIds := Some(ListOr(t.marineLifeIds)),
        conservationInfo := None,
        tideDependency := Some(FlagOr(t.tideDependency)),
        departurePort := None,
        marineArea := Some(TextOr(t.marineArea, "")),
        seasons := Some(ListOr(t.seasons)),
        expeditionType := Some(TextOr(t.expeditionType, "")),
        maxParticipants := Some(NumberOr(t.maxParticipants, 10.0)),
        basePrice := Some(NumberOr(t.basePrice, 0.0)),
        requiredEquipment := Some(ListOr(t.requiredEquipment)),
        safetyBriefing := Some(TextOr(t.safetyBriefing, "")),
        images := Some(ListOr(t.images)),
        published := Some(FlagOr(t.published)),
        guideId := Some(TextOr(t.guideId, "")),
        categoryId := Some(TextOr(t.categoryId, "")),
        startLocationId := Some(TextOr(t.startLocationId, "")),
        endLocationId := Some(TextOr(t.endLocationId, "")))
  }

  /** One change the user makes through a form field. */
  datatype FieldEdit =
    | SetName(name: string)
    | SetDescription(description: string)
    | SetDifficulty(difficulty: string)
    | SetDuration(duration: real)
    | SetMarineLifeIds(marineLifeIds: seq<string>)
    | SetExpeditionType(expeditionType: string)
    | SetSeasons(seasons: seq<string>)
    | SetDeparturePort(departurePort: string)
    | SetMarineArea(marineArea: string)
    | SetBasePrice(basePrice: real)
    | SetMaxParticipants(maxParticipants: real)
    | SetSafetyBriefing(safetyBriefing: string)
    | SetPublished(published: bool)
    | SetStartLocationId(startLocationId: string)
    | SetConservationInfo(conservationInfo: string)
    | SetEndLocationId(endLocationId: string)

  /** The form as written renders a field for every edit except
      conservationInfo and endLocationId. */
  predicate RenderedAsWritten(e: FieldEdit) {
    !e.SetConservationInfo? && !e.SetEndLocationId?
  }

  function ApplyEdit(v: FormValues, e: FieldEdit): FormValues {
    match e
    case SetName(x) => v.(name := Some(x))
    case SetDescription(x) => v.(description := Some(x))
    case SetDifficulty(x) => v.(difficulty := Some(x))
    case SetDuration(x) => v.(duration := Some(x))
    case SetMarineLifeIds(x) => v.(marineLifeIds := Some(x))
    case SetExpeditionType(x) => v.(expeditionType := Some(x))
    case SetSeasons(x) => v.(seasons := Some(x))
    case SetDeparturePort(x) => v.(departurePort := Some(x))
    case SetMarineArea(x) => v.(marineArea := Some(x))
    case SetBasePrice(x) => v.(basePrice := Some(x))
    case SetMaxParticipants(x) => v.(maxParticipants := Some(x))
    case SetSafetyBriefing(x) => v.(safetyBriefing := Some(x))
    case SetPublished(x) => v.(published := Some(x))
    case SetStartLocationId(x) => v.(startLocationId := Some(x))
    case SetConservationInfo(x) => v.(conservationInfo := Some(x))
    case SetEndLocationId(x) => v.(endLocationId := Some(x))
  }

  function ApplyEdits(v: FormValues, edits: seq<FieldEdit>): FormValues
    decreases |edits|
  {
    if edits == [] then v else ApplyEdits(ApplyEdit(v, edits[0]), edits[1..])
  }

  lemma {:induction false} RenderedEditsKeepConservationInfo(v: FormValues, edits: seq<FieldEdit>)
    requires forall i :: 0 <= i < |edits| ==> RenderedAsWritten(edits[i])
    ensures ApplyEdits(v, edits).conservationInfo == v.conservationInfo
    decreases |edits|
  {
    if edits != [] {
      RenderedEditsKeepConservationInfo(ApplyEdit(v, edits[0]), edits[1..]);
    }
  }

  /** The form as written can never be submitted: conservationInfo starts
      unset and no rendered field sets it, so the schema always reports it. */
  lemma FormAsWrittenNeverValid(initialData: Option<InitialTour>, edits: seq<FieldEdit>)
    requires forall i :: 0 <= i < |edits| ==> RenderedAsWritten(edits[i])
    ensures ConservationInfo in Issues(ApplyEdits(DefaultValues(initialData), edits))
    ensures Validate(ApplyEdits(DefaultValues(initialData), edits)).Rejected?
  {
    RenderedEditsKeepConservationInfo(DefaultValues(initialData), edits);
    ShortConservationInfoRejected(ApplyEdits(DefaultValues(initialData), edits));
  }

  /** The intended initial values: conservationInfo and departurePort start
      from the tour being edited, or empty, like the other text fields; every
      other field starts as written. */
  function DefaultValuesFixed(initialData: Option<InitialTour>): (v: FormValues)
    ensures v.(conservationInfo := None, departurePort := None) == DefaultValues(initialData)
    ensures initialData.None? ==> v.conservationInfo == Some("") && v.departurePort == Some("")
    ensures initialData.Some? ==>
      v.conservationInfo == Some(if initialData.value.conservationInfo.Some? then initialData.value.conservationInfo.value else "")
    ensures initialData.Some? ==>
      v.departurePort == Some(if initialData.value.departurePort.Some? then initialData.value.departurePort.value else "")
  {
    var conservationInfo := if initialData.Some? then initialData.value.conservationInfo else None;
    var departurePort := if initialData.Some? then initialData.value.departurePort else None;
    DefaultValues(initialData).(
      conservationInfo := Some(TextOr(conservationInfo, "")),
      departurePort := Some(TextOr(departurePort, "")))
  }

  /** The stored fields of a tour, as the form would hold them unchanged. */
  function StoredValues(t: InitialTour): FormValues {
    FormValues(t.name, t.description, t.difficulty, t.duration, t.marineLifeIds, t.conservationInfo,
      t.tideDependency, t.departurePort, t.marineArea, t.seasons, t.expeditionType, t.maxParticipants,
      t.basePrice, t.requiredEquipment, t.safetyBriefing, t.images, t.published, t.guideId,
      t.categoryId, t.startLocationId, t.endLocationId)
  }

  /** What the corrected initial values are for: editing a stored tour that
      the schema accepts, the corrected form validates before any edit, while
      the form as written rejects it for the missing conservationInfo. */
  lemma EditingValidTour(t: InitialTour)
    requires Validate(StoredValues(t)).Accepted?
    ensures Validate(DefaultValuesFixed(Some(t))).Accepted?
    ensures Validate(DefaultValues(Some(t))).Rejected?
    ensures ConservationInfo in Issues(DefaultValues(Some(t)))
  {
    var stored := StoredValues(t);
    ValidateAcceptsExactly(stored);
    var v := DefaultValuesFixed(Some(t));
    assert v.name == stored.name && v.description == stored.description;
    assert v.difficulty == stored.difficulty && v.duration == stored.duration;
    assert v.marineLifeIds == stored.marineLifeIds && v.conservationInfo == stored.conservationInfo;
    assert v.departurePort == stored.departurePort && v.marineArea == stored.marineArea;
    assert v.seasons == stored.seasons && v.expeditionType == stored.expeditionType;
    assert v.maxParticipants == stored.maxParticipants && v.basePrice == stored.basePrice;
    assert v.startLocationId == stored.startLocationId && v.endLocationId == stored.endLocationId;
    assert Issues(v) == Issues(stored);
    ShortConservationInfoRejected(DefaultValues(Some(t)));
  }

  /** Every field the schema constrains has a value. */
  predicate Complete(v: FormValues) {
    && v.name.Some? && v.description.Some? && v.difficulty.Some? && v.duration.Some?
    && v.marineLifeIds.Some? && v.conservationInfo.Some? && v.departurePort.Some?
    && v.marineArea.Some? && v.seasons.Some? && v.expeditionType.Some?
    && v.maxParticipants.Some? && v.basePrice.Some? && v.startLocationId.Some? && v.endLocationId.Some?
  }

  /** The edits that type the constrained fields of `target` into the form. */
  function FillIn(target: FormValues): (edits: seq<FieldEdit>)
    requires Complete(target)
  {
    [ SetName(target.name.value), SetDescription(target.description.value),
      SetDifficulty(target.difficulty.value), SetDuration(target.duration.value),
      SetMarineLifeIds(target.marineLifeIds.value), SetConservationInfo(target.conservationInfo.value),
      SetDeparturePort(target.departurePort.value), SetMarineArea(target.marineArea.value),
      SetSeasons(target.seasons.value), SetExpeditionType(target.expeditionType.value),
      SetMaxParticipants(target.maxParticipants.value), SetBasePrice(target.basePrice.value),
      SetStartLocationId(target.startLocationId.value), SetEndLocationId(target.endLocationId.value) ]
  }

  /** With conservationInfo and endLocationId fields rendered, editing each
      constrained field to its value in a combination the schema accepts
      gives values the schema accepts, from the initial values of a new tour
      or of any tour being edited. Edits carry any value of the field's type;
      that a select offers the value is not checked. */
  lemma FixedFormAcceptsFilledIn(initialData: Option<InitialTour>, target: FormValues)
    requires Validate(target).Accepted?
    ensures Validate(ApplyEdits(DefaultValuesFixed(initialData), FillIn(target))).Accepted?
  {
    var e := FillIn(target);
    FillInTargets(target, 0);
    var w := DefaultValuesFixed(initialData);
    var k := 0;
    while k < |e|
      invariant 0 <= k <= |e|
      invariant ApplyEdits(DefaultValuesFixed(initialData), e) == ApplyEdits(w, e[k..])
      invariant forall j :: 0 <= j < k ==> Holds(w, e[j])
    {
      ApplyEditsStep(w, e, k);
      ApplyEditHolds(w, e[k]);
      forall j | 0 <= j < k ensures Holds(ApplyEdit(w, e[k]), e[j]) {
        FillInTargets(target, j);
        FillInTargets(target, k);
        ApplyEditKeepsOthers(w, e[k], e[j]);
      }
      w := ApplyEdit(w, e[k]);
      k := k + 1;
    }
    assert e[|e|..] == [];
    FilledInAccepted(w, target);
  }

  /** Values that show every edit of `FillIn(target)` agree with `target` on
      each constrained field, so the schema accepts them too. */
  lemma FilledInAccepted(v: FormValues, target: FormValues)
    requires Validate(target).Accepted?
    requires forall j :: 0 <= j < |FillIn(target)| ==> Holds(v, FillIn(target)[j])
    ensures Validate(v).Accepted?
  {
    ValidateAcceptsExactly(target);
    FilledInAgrees(v, target);
    ValidateAcceptsExactly(v);
  }

  /** The two values hold the same on every field the schema constrains. */
  predicate AgreeOnConstrained(v: FormValues, w: FormValues) {
    && v.name == w.name && v.description == w.description && v.difficulty == w.difficulty
    && v.duration == w.duration && v.marineLifeIds == w.marineLifeIds
    && v.conservationInfo == w.conservationInfo && v.departurePort == w.departurePort
    && v.marineArea == w.marineArea && v.seasons == w.seasons && v.expeditionType == w.expeditionType
    && v.maxParticipants == w.maxParticipants && v.basePrice == w.basePrice
    && v.startLocationId == w.startLocationId && v.endLocationId == w.endLocationId
  }

  lemma FilledInAgrees(v: FormValues, target: FormValues)
    requires Complete(target)
    requires forall j :: 0 <= j < |FillIn(target)| ==> Holds(v, FillIn(target)[j])
    ensures AgreeOnConstrained(v, target)
  {
    var e := FillIn(target);
    assert Holds(v, e[0]) && Holds(v, e[1]) && Holds(v, e[2]) && Holds(v, e[3]) && Holds(v, e[4]);
    assert Holds(v, e[5]) && Holds(v, e[6]) && Holds(v, e[7]) && Holds(v, e[8]) && Holds(v, e[9]);
    assert Holds(v, e[10]) && Holds(v, e[11]) && Holds(v, e[12]) && Holds(v, e[13]);
  }

  /** The place of a constrained field in the schema; -1 for the others. */
  function Position(f: Field): int {
    match f
    case Name => 0
    case Description => 1
    case Difficulty => 2
    case Duration => 3
    case MarineLifeIds => 4
    case ConservationInfo => 5
    case DeparturePort => 6
    case MarineArea => 7
    case Seasons => 8
    case ExpeditionType => 9
    case MaxParticipants => 10
    case BasePrice => 11
    case StartLocationId => 12
    case EndLocationId => 13
    case _ => -1
  }

  /** `FillIn` writes each constrained field once, in schema order. */
  lemma FillInTargets(target: FormValues, j: nat)
    requires Complete(target)
    requires j < 14
    ensures |FillIn(target)| == 14
    ensures Position(Target(FillIn(target)[j])) == j
  {
    var e := FillIn(target);
    if j < 7 {
      assert Position(Target(e[j])) == j by {
        if j == 0 {} else if j == 1 {} else if j == 2 {} else if j == 3 {} else if j == 4 {} else if j == 5 {} else {}
      }
    } else {
      assert Position(Target(e[j])) == j by {
        if j == 7 {} else if j == 8 {} else if j == 9 {} else if j == 10 {} else if j == 11 {} else if j == 12 {} else {}
      }
    }
  }

  /** The field an edit writes. */
  function Target(e: FieldEdit): Field {
    match e
    case SetName(_) => Name
    case SetDescription(_) => Description
    case SetDifficulty(_) => Difficulty
    case SetDuration(_) => Duration
    case SetMarineLifeIds(_) => MarineLifeIds
    case SetExpeditionType(_) => ExpeditionType
    case SetSeasons(_) => Seasons
    case SetDeparturePort(_) => DeparturePort
    case SetMarineArea(_) => MarineArea
    case SetBasePrice(_) => BasePrice
    case SetMaxParticipants(_) => MaxParticipants
    case SetSafetyBriefing(_) => SafetyBriefing
    case SetPublished(_) => Published
    case SetStartLocationId(_) => StartLocationId
    case SetConservationInfo(_) => ConservationInfo
    case SetEndLocationId(_) => EndLocationId
  }

  /** The values show the effect of edit `e`. */
  predicate Holds(v: FormValues, e: FieldEdit) {
    match e
    case SetName(x) => v.name == Some(x)
    case SetDescription(x) => v.description == Some(x)
    case SetDifficulty(x) => v.difficulty == Some(x)
    case SetDuration(x) => v.duration == Some(x)
    case SetMarineLifeIds(x) => v.marineLifeIds == Some(x)
    case SetExpeditionType(x) => v.expeditionType == Some(x)
    case SetSeasons(x) => v.seasons == Some(x)
    case SetDeparturePort(x) => v.departurePort == Some(x)
    case SetMarineArea(x) => v.marineArea == Some(x)
    case SetBasePrice(x) => v.basePrice == Some(x)
    case SetMaxParticipants(x) => v.maxParticipants == Some(x)
    case SetSafetyBriefing(x) => v.safetyBriefing == Some(x)
    case SetPublished(x) => v.published == Some(x)
    case SetStartLocationId(x) => v.startLocationId == Some(x)
    case SetConservationInfo(x) => v.conservationInfo == Some(x)
    case SetEndLocationId(x) => v.endLocationId == Some(x)
  }

  /** An edit shows in the values it produces. */
  lemma ApplyEditHolds(v: FormValues, e: FieldEdit)
    ensures Holds(ApplyEdit(v, e), e)
  {
  }

  /** An edit leaves the fields of other edits as they were. */
  lemma ApplyEditKeepsOthers(v: FormValues, a: FieldEdit, b: FieldEdit)
    requires Holds(v, b)
    requires Target(a) != Target(b)
    ensures Holds(ApplyEdit(v, a), b)
  {
  }

  lemma ApplyEditsStep(v: FormValues, e: seq<FieldEdit>, k: nat)
    requires k < |e|
    ensures ApplyEdits(v, e[k..]) == ApplyEdits(ApplyEdit(v, e[k]), e[k + 1..])
  {
    assert e[k..][0] == e[k];
    assert e[k..][1..] == e[k + 1..];
  }

  lemma {:induction false} ApplyEditsSplit(v: FormValues, a: seq<FieldEdit>, b: seq<FieldEdit>)
    ensures ApplyEdits(v, a + b) == ApplyEdits(ApplyEdits(v, a), b)
    decreases |a|
  {
    if a == [] {
      assert a + b == b;
    } else {
      ApplyEditsSplit(ApplyEdit(v, a[0]), a[1..], b);
      assert (a + b)[0] == a[0];
      assert (a + b)[1..] == a[1..] + b;
    }
  }

  // ---------------------------------------------------------------------
  // Create or update
  // ---------------------------------------------------------------------

  datatype HttpMethod = Post | Patch

  datatype SaveRequest = SaveRequest(verb: HttpMethod, url: string, body: FormValues)

  /** `mutationFn`'s choice of method and URL. */
  function SaveTarget(initialData: Option<InitialTour>): (HttpMethod, string) {
    if initialData.Some? then (Patch, "/api/tours/" + initialData.value.id) else (Post, "/api/tours")
  }

  /** With initial data the form updates that tour, whose id can be read
      back from the URL; without, it creates one. */
  lemma SaveTargetChoice(initialData: Option<InitialTour>)
    ensures SaveTarget(initialData).0 == Patch <==> initialData.Some?
    ensures initialData.Some? ==> SaveTarget(initialData).1 == "/api/tours/" + initialData.value.id
    ensures initialData.None? ==> SaveTarget(initialData) == (Post, "/api/tours")
    ensures SaveTarget(initialData).1 == "/api/tours" <==> initialData.None?
    ensures initialData.Some? ==>
      && SaveTarget(initialData).1[..|"/api/tours/"|] == "/api/tours/"
      && SaveTarget(initialData).1[|"/api/tours/"|..] == initialData.value.id
  {
    if initialData.Some? {
      assert |SaveTarget(initialData).1| > |"/api/tours"|;
    }
  }

  /** The form component's state, for the corrected form: it starts from
      `DefaultValuesFixed` and lets the user edit every field the schema
      constrains, conservationInfo and endLocationId included. */
  class TourFormState {
    const initialData: Option<InitialTour>
    var values: FormValues
    var isSubmitting: bool

    constructor (initialData: Option<InitialTour>)
      ensures this.initialData == initialData
      ensures values == DefaultValuesFixed(initialData)
      ensures !isSubmitting
    {
      this.initialData := initialData;
      values := DefaultValuesFixed(initialData);
      isSubmitting := false;
    }

    method Edit(e: FieldEdit)
      modifies this
      ensures values == ApplyEdit(old(values), e)
      ensures isSubmitting == old(isSubmitting)
    {
      values := ApplyEdit(values, e);
    }

    /** Submitting the form. While a save is in flight the submit button is
      disabled, so nothing is sent and nothing changes. Otherwise
      `form.handleSubmit(onSubmitForm)` runs: values the schema rejects send
      nothing and leave the flag alone; accepted values set `isSubmitting`
      and start the save, whose request is returned. */
    method Submit() returns (request: Option<SaveRequest>)
      modifies this
      ensures values == old(values)
      ensures old(isSubmitting) ==> request.None? && isSubmitting
      ensures !old(isSubmitting) && Validate(values).Rejected? ==> request.None? && !isSubmitting
      ensures !old(isSubmitting) && Validate(values).Accepted? ==>
        && isSubmitting
        && request == Some(SaveRequest(SaveTarget(initialData).0, SaveTarget(initialData).1, Validate(values).values))
    {
      if isSubmitting {
        // `disabled={isSubmitting}` on the submit button
        return None;
      }
      var validation := Validate(values);
      if validation.Rejected? {
        return None;
      }
      isSubmitting := true;
      var target := SaveTarget(initialData);
      request := Some(SaveRequest(target.0, target.1, validation.values));
    }

    /** `onError`: the only place the flag is cleared. */
    method OnError()
      modifies this
      ensures !isSubmitting
      ensures values == old(values)
    {
      isSubmitting := false;
    }

    /** `onSuccess` only invalidates the cache, toasts and navigates away:
        the flag stays set. */
    method OnSuccess()
      ensures isSubmitting == old(isSubmitting)
      ensures values == old(values)
    {
    }
  }

  // ---------------------------------------------------------------------
  // Option lists built from the species reference data
  // ---------------------------------------------------------------------

  /** `marineLifeData.map((item) => ({ value: item.id, label: item.name }))` */
  function MarineLifeOptions(items: seq<MarineLifeItem>): (r: seq<SelectOption>)
    ensures |r| == |items|
    ensures forall i :: 0 <= i < |items| ==> r[i] == SelectOption(items[i].id, items[i].name)
  {
    if items == [] then [] else [SelectOption(items[0].id, items[0].name)] + MarineLifeOptions(items[1..])
  }

  /** `marineLifeData.flatMap((item) => item.expeditions)` */
  function AllExpeditions(items: seq<MarineLifeItem>): seq<string> {
    if items == [] then [] else items[0].expeditions + AllExpeditions(items[1..])
  }

  lemma {:induction false} AllExpeditionsExact(items: seq<MarineLifeItem>)
    ensures forall x :: x in AllExpeditions(items) <==> exists i :: 0 <= i < |items| && x in items[i].expeditions
  {
    if items != [] {
      AllExpeditionsExact(items[1..]);
      forall x | x in AllExpeditions(items)
        ensures exists i :: 0 <= i < |items| && x in items[i].expeditions
      {
        if x !in items[0].expeditions {
          assert x in AllExpeditions(items[1..]);
          var j :| 0 <= j < |items[1..]| && x in items[1..][j].expeditions;
          assert items[j + 1] == items[1..][j];
        }
      }
      forall x | exists i :: 0 <= i < |items| && x in items[i].expeditions
        ensures x in AllExpeditions(items)
      {
        var i :| 0 <= i < |items| && x in items[i].expeditions;
        if i > 0 {
          assert items[1..][i - 1] == items[i];
        }
      }
    }
  }

  /** `Array.from(new Set(xs))`: each value once, at its first occurrence. */
  function Distinct(xs: seq<string>): seq<string>
    decreases |xs|
  {
    if xs == [] then []
    else
      var init := Distinct(xs[..|xs| - 1]);
      if xs[|xs| - 1] in init then init else init + [xs[|xs| - 1]]
  }

  lemma {:induction false} DistinctCorrect(xs: seq<string>)
    ensures NoDuplicates(Distinct(xs))
    ensures forall x :: x in Distinct(xs) <==> x in xs
    decreases |xs|
  {
    if xs != [] {
      var prefix := xs[..|xs| - 1];
      DistinctCorrect(prefix);
      assert xs == prefix + [xs[|xs| - 1]];
    }
  }

  /** A list that already has no duplicates is its own set. */
  lemma {:induction false} DistinctOfDistinct(xs: seq<string>)
    requires NoDuplicates(xs)
    ensures Distinct(xs) == xs
    decreases |xs|
  {
    if xs != [] {
      var prefix := xs[..|xs| - 1];
      DistinctOfDistinct(prefix);
      assert xs == prefix + [xs[|xs| - 1]];
    }
  }

  /** The index of the first occurrence of `x` in `xs`. */
  function FirstIndex(xs: seq<string>, x: string): (r: nat)
    requires x in xs
    ensures r < |xs| && xs[r] == x
    ensures forall k :: 0 <= k < r ==> xs[k] != x
  {
    if xs[0] == x then 0 else 1 + FirstIndex(xs[1..], x)
  }

  /** Appending leaves the first occurrence of an earlier value where it was. */
  lemma FirstIndexAppend(init: seq<string>, last: string, x: string)
    requires x in init
    ensures FirstIndex(init + [last], x) == FirstIndex(init, x)
  {
    assert (init + [last])[FirstIndex(init, x)] == x;
  }

  /** A Set iterates in insertion order, so the distinct values come in the
      order of their first occurrences. */
  lemma {:induction false} DistinctFirstOccurrenceOrder(xs: seq<string>)
    ensures forall x :: x in Distinct(xs) ==> x in xs
    ensures forall i, j :: 0 <= i < j < |Distinct(xs)| ==>
      Distinct(xs)[i] in xs && Distinct(xs)[j] in xs &&
      FirstIndex(xs, Distinct(xs)[i]) < FirstIndex(xs, Distinct(xs)[j])
    decreases |xs|
  {
    DistinctCorrect(xs);
    if xs != [] {
      var init := xs[..|xs| - 1];
      var last := xs[|xs| - 1];
      assert xs == init + [last];
      var d := Distinct(init);
      DistinctFirstOccurrenceOrder(init);
      DistinctCorrect(init);
      forall i, j | 0 <= i < j < |Distinct(xs)|
        ensures FirstIndex(xs, Distinct(xs)[i]) < FirstIndex(xs, Distinct(xs)[j])
      {
        FirstIndexAppend(init, last, Distinct(xs)[i]);
        if j < |d| {
          FirstIndexAppend(init, last, Distinct(xs)[j]);
        } else {
          assert Distinct(xs)[j] == last && last !in init;
          assert FirstIndex(xs, last) == |init|;
        }
      }
    }
  }

  /** The expedition options, each labelled by itself. */
  function ExpeditionOptions(items: seq<MarineLifeItem>): (options: seq<SelectOption>)
    ensures |options| == |Distinct(AllExpeditions(items))|
    ensures forall i :: 0 <= i < |options| ==>
      options[i].value == options[i].labelText == Distinct(AllExpeditions(items))[i]
  {
    var names := Distinct(AllExpeditions(items));
    seq(|names|, i requires 0 <= i < |names| => SelectOption(names[i], names[i]))
  }

  /** The expedition names offered are those of all species, each once. */
  lemma ExpeditionOptionsCorrect(items: seq<MarineLifeItem>)
    ensures NoDuplicates(Distinct(AllExpeditions(items)))
    ensures forall x :: x in Distinct(AllExpeditions(items)) <==>
      exists k :: 0 <= k < |items| && x in items[k].expeditions
  {
    DistinctCorrect(AllExpeditions(items));
    AllExpeditionsExact(items);
  }
}
