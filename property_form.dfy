/**
 * The create/edit form (src/components/PropertyForm.js): the validator, the
 * mapping of a loaded record onto a draft, the field-update rule, the submit
 * transition and the effect that picks create or edit mode from the
 * `propertyId` prop.
 *
 * The component's state is the class `PropertyForm`; each of its methods is
 * proved to implement a transition function on the value `FormState`, and
 * the properties are proved about those functions.
 */
module FormController {
  import opened Js
  import opened Model
  import opened Service

  // ---------------------------------------------------------------------------
  // validateForm
  // ---------------------------------------------------------------------------

  /** The eleven things the validator can report, in the order it checks them. */
  datatype Violation =
    | NameRequired | AddressRequired | CityRequired | DescriptionRequired | OwnerRequired | TypeRequired
    | PriceNegative | RoomsNegative | BathroomsNegative | ParkingLotsNegative | AreaNegative

  const AllViolations: seq<Violation> := [
    NameRequired, AddressRequired, CityRequired, DescriptionRequired, OwnerRequired, TypeRequired,
    PriceNegative, RoomsNegative, BathroomsNegative, ParkingLotsNegative, AreaNegative]

  /** The message the form shows for a violation. */
  function Message(v: Violation): (m: string)
    ensures |m| > 0
  {
    match v
    case NameRequired => "El nombre es requerido"
    case AddressRequired => "La dirección es requerida"
    case CityRequired => "La ciudad es requerida"
    case DescriptionRequired => "La descripción es requerida"
    case OwnerRequired => "El propietario es requerido"
    case TypeRequired => "El tipo de propiedad es requerido"
    case PriceNegative => "El precio no puede ser negativo"
    case RoomsNegative => "El número de habitaciones no puede ser negativo"
    case BathroomsNegative => "El número de baños no puede ser negativo"
    case ParkingLotsNegative => "El número de parqueaderos no puede ser negativo"
    case AreaNegative => "El área no puede ser negativa"
  }

  /** Whether a check of the validator fails on a draft. Text fields are trimmed; the type is not. */
  predicate Fails(d: Draft, v: Violation) {
    match v
    case NameRequired => Trim(d.name) == ""
    case AddressRequired => Trim(d.address) == ""
    case CityRequired => Trim(d.city) == ""
    case DescriptionRequired => Trim(d.description) == ""
    case OwnerRequired => Trim(d.owner) == ""
    case TypeRequired => d.propertyType == ""
    case PriceNegative => d.price < 0
    case RoomsNegative => d.rooms < 0
    case BathroomsNegative => d.bathrooms < 0
    case ParkingLotsNegative => d.parkingLots < 0
    case AreaNegative => d.areaSquareMeters < 0
  }

  /** What the checks `vs`, run in order, report on a draft. */
  function Violations(d: Draft, vs: seq<Violation>): seq<Violation>
    decreases |vs|
  {
    if vs == [] then []
    else Violations(d, vs[..|vs| - 1]) + (if Fails(d, vs[|vs| - 1]) then [vs[|vs| - 1]] else [])
  }

  /**
   * What a submittable draft is: name, address, city, description and owner
   * hold more than white space, the type is not empty, and the five numbers
   * are not negative.
   */
  predicate Complete(d: Draft) {
    && !Blank(d.name) && !Blank(d.address) && !Blank(d.city) && !Blank(d.description) && !Blank(d.owner)
    && d.propertyType != ""
    && d.price >= 0 && d.rooms >= 0 && d.bathrooms >= 0 && d.parkingLots >= 0 && d.areaSquareMeters >= 0
  }

  /** `validateForm`: every check, in order; it never reports more violations than there are checks. */
  function ValidateForm(d: Draft): (errors: seq<Violation>)
    ensures |errors| <= |AllViolations|
  {
    ViolationsLength(d, AllViolations);
    Violations(d, AllViolations)
  }

  /** The messages of a list of violations. */
  function Messages(vs: seq<Violation>): (ms: seq<string>)
    ensures |ms| == |vs|
    ensures forall i :: 0 <= i < |vs| ==> ms[i] == Message(vs[i])
  {
    seq(|vs|, i requires 0 <= i < |vs| => Message(vs[i]))
  }

  /**
   * The text `handleSubmit` stores when validation fails: the messages joined
   * with ", ", so it starts with the first violation's message and is empty
   * only when there is no violation.
   */
  function ErrorText(vs: seq<Violation>): (text: string)
    ensures vs == [] ==> text == ""
    ensures vs != [] ==> |text| >= |Message(vs[0])| > 0 && text[..|Message(vs[0])|] == Message(vs[0])
  {
    var ms := Messages(vs);
    assert vs != [] ==> ms[0] == Message(vs[0]);
    Join(ms, ", ")
  }

  lemma ViolationEnumeration()
    ensures forall v :: v in AllViolations
  {
    forall v ensures v in AllViolations {
      match v
      case NameRequired => assert AllViolations[0] == v;
      case AddressRequired => assert AllViolations[1] == v;
      case CityRequired => assert AllViolations[2] == v;
      case DescriptionRequired => assert AllViolations[3] == v;
      case OwnerRequired => assert AllViolations[4] == v;
      case TypeRequired => assert AllViolations[5] == v;
      case PriceNegative => assert AllViolations[6] == v;
      case RoomsNegative => assert AllViolations[7] == v;
      case BathroomsNegative => assert AllViolations[8] == v;
      case ParkingLotsNegative => assert AllViolations[9] == v;
      case AreaNegative => assert AllViolations[10] == v;
    }
  }

  /** A check reports its violation exactly when it is among the checks run and fails. */
  lemma {:induction false} ViolationsMembership(d: Draft, vs: seq<Violation>, v: Violation)
    ensures v in Violations(d, vs) <==> v in vs && Fails(d, v)
    decreases |vs|
  {
    if vs != [] {
      ViolationsMembership(d, vs[..|vs| - 1], v);
      assert vs == vs[..|vs| - 1] + [vs[|vs| - 1]];
    }
  }

  lemma {:induction false} ViolationsLength(d: Draft, vs: seq<Violation>)
    ensures |Violations(d, vs)| <= |vs|
    decreases |vs|
  {
    if vs != [] {
      ViolationsLength(d, vs[..|vs| - 1]);
    }
  }

  /** Checks report in the order they run: the violations of earlier checks come first. */
  lemma {:induction false} ViolationsAppend(d: Draft, a: seq<Violation>, b: seq<Violation>)
    ensures Violations(d, a + b) == Violations(d, a) + Violations(d, b)
    decreases |b|
  {
    if b == [] {
      assert a + b == a;
    } else {
      assert (a + b)[..|a + b| - 1] == a + b[..|b| - 1];
      ViolationsAppend(d, a, b[..|b| - 1]);
    }
  }

  /** Every reported violation is one the draft commits: a check that does not fail reports nothing. */
  lemma {:induction false} PassingChecksReportNothing(d: Draft, vs: seq<Violation>)
    requires forall i :: 0 <= i < |vs| ==> !Fails(d, vs[i])
    ensures Violations(d, vs) == []
    decreases |vs|
  {
    if vs != [] {
      PassingChecksReportNothing(d, vs[..|vs| - 1]);
    }
  }

  /** A violation is reported exactly when its check fails. */
  lemma ValidateFormReports(d: Draft, v: Violation)
    ensures v in ValidateForm(d) <==> Fails(d, v)
  {
    ViolationEnumeration();
    ViolationsMembership(d, AllViolations, v);
  }

  /** A draft passes validation exactly when it is complete. */
  lemma ValidateFormAcceptsComplete(d: Draft)
    ensures ValidateForm(d) == [] <==> Complete(d)
  {
    TrimEmptyIffBlank(d.name);
    TrimEmptyIffBlank(d.address);
    TrimEmptyIffBlank(d.city);
    TrimEmptyIffBlank(d.description);
    TrimEmptyIffBlank(d.owner);
    if ValidateForm(d) == [] {
      forall v ensures !Fails(d, v) {
        ValidateFormReports(d, v);
      }
      assert !Fails(d, NameRequired) && !Fails(d, AddressRequired) && !Fails(d, CityRequired);
      assert !Fails(d, DescriptionRequired) && !Fails(d, OwnerRequired) && !Fails(d, TypeRequired);
      assert !Fails(d, PriceNegative) && !Fails(d, RoomsNegative) && !Fails(d, BathroomsNegative);
      assert !Fails(d, ParkingLotsNegative) && !Fails(d, AreaNegative);
    } else {
      ValidateFormReports(d, ValidateForm(d)[0]);
    }
  }

  /** A name of white space only counts as missing. */
  lemma BlankNameIsMissing(d: Draft)
    requires Blank(d.name)
    ensures NameRequired in ValidateForm(d)
  {
    TrimEmptyIffBlank(d.name);
    ValidateFormReports(d, NameRequired);
  }

  /** The position of a check in the validator's order. */
  function Rank(v: Violation): (r: nat)
    ensures r < |AllViolations| && AllViolations[r] == v
  {
    match v
    case NameRequired => 0
    case AddressRequired => 1
    case CityRequired => 2
    case DescriptionRequired => 3
    case OwnerRequired => 4
    case TypeRequired => 5
    case PriceNegative => 6
    case RoomsNegative => 7
    case BathroomsNegative => 8
    case ParkingLotsNegative => 9
    case AreaNegative => 10
  }

  predicate InCheckOrder(vs: seq<Violation>) {
    forall i, j :: 0 <= i < j < |vs| ==> Rank(vs[i]) < Rank(vs[j])
  }

  lemma AllViolationsInCheckOrder()
    ensures InCheckOrder(AllViolations)
  {
    forall i, j | 0 <= i < j < |AllViolations| ensures Rank(AllViolations[i]) < Rank(AllViolations[j]) {
      RankIsPosition(i);
      RankIsPosition(j);
    }
  }

  lemma RankIsPosition(i: int)
    requires 0 <= i < |AllViolations|
    ensures Rank(AllViolations[i]) == i
  {
  }

  /** Running checks given in order reports in that order. */
  lemma {:induction false} ViolationsKeepOrder(d: Draft, vs: seq<Violation>)
    requires InCheckOrder(vs)
    ensures InCheckOrder(Violations(d, vs))
    decreases |vs|
  {
    if vs != [] {
      var init := vs[..|vs| - 1];
      var last := vs[|vs| - 1];
      ViolationsKeepOrder(d, init);
      var r := Violations(d, init);
      forall i | 0 <= i < |r| ensures Rank(r[i]) < Rank(last) {
        ViolationsMembership(d, init, r[i]);
        var k :| 0 <= k < |init| && init[k] == r[i];
      }
    }
  }

  /** `validateForm` reports in its fixed order: every violation at most once, earlier checks first. */
  lemma ValidateFormOrdered(d: Draft)
    ensures InCheckOrder(ValidateForm(d))
  {
    AllViolationsInCheckOrder();
    ViolationsKeepOrder(d, AllViolations);
  }

  /** A draft that misses only its name and has a negative price reports both, the missing name first. */
  lemma ValidateFormExample(d: Draft)
    requires Fails(d, NameRequired) && Fails(d, PriceNegative)
    requires forall v :: v != NameRequired && v != PriceNegative ==> !Fails(d, v)
    ensures ValidateForm(d) == [NameRequired, PriceNegative]
  {
    var errors := ValidateForm(d);
    ValidateFormOrdered(d);
    ValidateFormReports(d, NameRequired);
    ValidateFormReports(d, PriceNegative);
    forall i | 0 <= i < |errors| ensures errors[i] == NameRequired || errors[i] == PriceNegative {
      ValidateFormReports(d, errors[i]);
    }
    OrderedPair(errors, NameRequired, PriceNegative);
  }

  /** An ordered list holding exactly two violations is those two, lower rank first. */
  lemma OrderedPair(vs: seq<Violation>, a: Violation, b: Violation)
    requires InCheckOrder(vs) && Rank(a) < Rank(b)
    requires a in vs && b in vs
    requires forall i :: 0 <= i < |vs| ==> vs[i] == a || vs[i] == b
    ensures vs == [a, b]
  {
    if |vs| > 2 {
      RanksSpread(vs);
      assert false;
    }
    assert |vs| != 1;
  }

  lemma RanksSpread(vs: seq<Violation>)
    requires InCheckOrder(vs) && |vs| > 2
    ensures Rank(vs[0]) + 2 <= Rank(vs[2]) && Rank(vs[0]) < Rank(vs[1]) < Rank(vs[2])
  {
  }

  // ---------------------------------------------------------------------------
  // handleInputChange
  // ---------------------------------------------------------------------------

  /** The kind of input each field is edited with: the checkbox, number inputs, or text-like inputs. */
  datatype InputKind = Checkbox | NumberInput | TextInput

  function KindOf(f: DraftField): InputKind {
    match f
    case Active => Checkbox
    case Price => NumberInput
    case Rooms => NumberInput
    case Bathrooms => NumberInput
    case ParkingLots => NumberInput
    case AreaSquareMeters => NumberInput
    case _ => TextInput
  }

  /** `parseFloat(value) || 0`: the parsed number, or 0 when it is NaN. */
  function NumberOrZero(parsed: Option<int>): int {
    match parsed
    case Some(n) => n
    case None => 0
  }

  /** The value an input event stores, by the kind of its input. */
  function InputValue(f: DraftField, value: string, checked: bool, parse: string -> Option<int>): Value {
    match KindOf(f)
    case Checkbox => Bool(checked)
    case NumberInput => Num(NumberOrZero(parse(value)))
    case TextInput => Str(value)
  }

  /** `{...prev, [name]: ...}`: the field named by the event takes the input's value; no other field changes. */
  function ApplyInput(d: Draft, f: DraftField, value: string, checked: bool, parse: string -> Option<int>): (r: Draft)
    ensures FieldOf(r, f) == InputValue(f, value, checked, parse)
    ensures forall g :: g != f ==> FieldOf(r, g) == FieldOf(d, g)
  {
    match f
    case Address => d.(address := value)
    case City => d.(city := value)
    case Active => d.(active := checked)
    case Price => d.(price := NumberOrZero(parse(value)))
    case Description => d.(description := value)
    case Name => d.(name := value)
    case Rooms => d.(rooms := NumberOrZero(parse(value)))
    case Bathrooms => d.(bathrooms := NumberOrZero(parse(value)))
    case ParkingLots => d.(parkingLots := NumberOrZero(parse(value)))
    case AreaSquareMeters => d.(areaSquareMeters := NumberOrZero(parse(value)))
    case Type => d.(propertyType := value)
    case Owner => d.(owner := value)
  }

  // ---------------------------------------------------------------------------
  // The edit-mode mapping of a loaded record
  // ---------------------------------------------------------------------------

  /** `x || ''` on a string property. */
  function TextOr(t: Option<string>, default: string): string {
    if Present(t) then t.value else default
  }

  /** `x || 0` on a number property. */
  function NumberOr0(n: Option<int>): int {
    if n.Some? && n.value != 0 then n.value else 0
  }

  /**
   * The draft the form fills in from a loaded record: the draft the
   * `PropertyInDTO` constructor builds from the record's usable fields.
   */
  function EditDraft(p: PropertyRecord): (d: Draft)
    ensures d == NewDraft(RecordArgs(p))
  {
    Draft(
      TextOr(p.address, ""),
      TextOr(p.city, ""),
      p.active.GetOr(true),
      NumberOr0(p.price),
      TextOr(p.description, ""),
      TextOr(p.name, ""),
      NumberOr0(p.rooms),
      NumberOr0(p.bathrooms),
      NumberOr0(p.parkingLots),
      NumberOr0(p.areaSquareMeters),
      TextOr(p.propertyEntity, TypeName(HOUSE)),
      TextOr(p.owner, ""))
  }

  /** The constructor arguments a record supplies: its present fields, a type only when `propertyEntity` is truthy. */
  function RecordArgs(p: PropertyRecord): DraftArgs {
    DraftArgs(p.address, p.city, p.active, p.price, p.description, p.name, p.rooms, p.bathrooms,
      p.parkingLots, p.areaSquareMeters, if Present(p.propertyEntity) then p.propertyEntity else None, p.owner)
  }

  /**
   * The mapping fills every missing field with the default of a new draft:
   * '' for texts, 0 for numbers, `active` true only when it is absent (false
   * is kept), and HOUSE when `propertyEntity` is absent or empty; the
   * record's `type` property is not read.
   */
  lemma EditDraftDefaults(p: PropertyRecord)
    ensures forall f :: FieldOf(EditDraft(p), f) == ArgOf(RecordArgs(p), f).GetOr(FieldOf(DefaultDraft, f))
    ensures p.active == Some(false) ==> !EditDraft(p).active
    ensures !Present(p.propertyEntity) ==> EditDraft(p).propertyType == "HOUSE"
    ensures forall t :: EditDraft(p.(propertyType := t)) == EditDraft(p)
  {
  }

  /** The record the backend holds after storing a draft, carrying the type under both names. */
  function Stored(id: PropertyId, d: Draft): PropertyRecord {
    PropertyRecord(Some(id), Some(d.address), Some(d.city), Some(d.active), Some(d.price),
      Some(d.description), Some(d.name), Some(d.rooms), Some(d.bathrooms), Some(d.parkingLots),
      Some(d.areaSquareMeters), Some(d.propertyType), Some(d.propertyType), Some(d.owner))
  }

  /** Loading a stored draft for editing gives that draft back, as long as its type is not empty. */
  lemma EditDraftRoundTrip(id: PropertyId, d: Draft)
    requires d.propertyType != ""
    ensures EditDraft(Stored(id, d)) == d
  {
  }

  /** A record that carries its type only under `type` is edited as a HOUSE. */
  lemma EditDraftIgnoresTypeField(id: PropertyId, d: Draft)
    requires d.propertyType == TypeName(VILLA)
    ensures EditDraft(Stored(id, d).(propertyEntity := None)).propertyType == TypeName(HOUSE)
  {
  }

  // ---------------------------------------------------------------------------
  // The form's state and its transitions
  // ---------------------------------------------------------------------------

  /** The four state fields of the component, and the `propertyId` prop it last saw. */
  datatype FormState = FormState(
    formData: Draft,
    loading: bool,
    error: Option<string>,
    isEdit: bool,
    propertyId: Option<PropertyId>)

  const InitialForm := FormState(DefaultDraft, false, None, false, None)

  /** JavaScript truthiness of the `propertyId` prop. */
  predicate IdTruthy(id: Option<PropertyId>) {
    id.Some? && id.value != ""
  }

  /** `${propertyId}` in a path. */
  function IdText(id: Option<PropertyId>): string {
    match id
    case Some(s) => s
    case None => "undefined"
  }

  /** A state between events: not loading, and in edit mode exactly when the prop is truthy. */
  predicate Settled(s: FormState) {
    !s.loading && (s.isEdit <==> IdTruthy(s.propertyId))
  }

  /** `fetchProperty(id)`: load the record and map it onto the draft, or keep the error. */
  function LoadProperty(s: FormState, id: PropertyId, send: Request -> Outcome<PropertyRecord>): (r: FormState)
    ensures !r.loading && r.isEdit == s.isEdit && r.propertyId == s.propertyId
    ensures send(Get(PropertyPath(id), [])).Delivered? ==>
      r.formData == EditDraft(send(Get(PropertyPath(id), [])).data) && r.error == s.error
    ensures send(Get(PropertyPath(id), [])).Failed? ==>
      r.formData == s.formData && r.error == Some(HandleError(send(Get(PropertyPath(id), [])).failure).message)
  {
    match GetPropertyById(id, send)
    case Ok(p) => s.(formData := EditDraft(p), loading := false)
    case Err(e) => s.(error := Some(e.message), loading := false)
  }

  /** The `propertyId` effect: a truthy id enters edit mode and loads; a falsy one enters create mode with a fresh draft. */
  function PropertyIdChanged(s: FormState, propertyId: Option<PropertyId>, send: Request -> Outcome<PropertyRecord>): (r: FormState)
    ensures r.propertyId == propertyId
    ensures r.isEdit <==> IdTruthy(propertyId)
    ensures IdTruthy(propertyId) ==>
      r == LoadProperty(s.(propertyId := propertyId, isEdit := true), propertyId.value, send)
    ensures !IdTruthy(propertyId) ==>
      r.formData == DefaultDraft && r.loading == s.loading && r.error == s.error
    ensures !s.loading ==> Settled(r)
  {
    if IdTruthy(propertyId) then
      LoadProperty(s.(propertyId := propertyId, isEdit := true, loading := true), propertyId.value, send)
    else
      s.(propertyId := propertyId, isEdit := false, formData := DefaultDraft)
  }

  /** The request a valid submit sends: an update of the prop's id in edit mode, a create otherwise. */
  function SubmitRequest(s: FormState): Request {
    if s.isEdit then Put(PropertyPath(IdText(s.propertyId)), s.formData) else Post("/properties", s.formData)
  }

  /** The state after a submit, and the record handed to `onSave` if there is one. */
  datatype SubmitResult = SubmitResult(state: FormState, saved: Option<PropertyRecord>)

  /** `handleSubmit`. */
  function Submit(s: FormState, send: Request -> Outcome<PropertyRecord>): (r: SubmitResult)
    ensures r.state.formData == s.formData && r.state.isEdit == s.isEdit && r.state.propertyId == s.propertyId
    ensures ValidateForm(s.formData) != [] ==>
      r.saved == None && r.state == s.(error := Some(ErrorText(ValidateForm(s.formData))))
    ensures ValidateForm(s.formData) == [] ==>
      && !r.state.loading
      && (send(SubmitRequest(s)).Delivered? ==> r.saved == Some(send(SubmitRequest(s)).data) && r.state.error == None)
      && (send(SubmitRequest(s)).Failed? ==>
            r.saved == None && r.state.error == Some(HandleError(send(SubmitRequest(s)).failure).message))
  {
    var errors := ValidateForm(s.formData);
    if |errors| > 0 then
      SubmitResult(s.(error := Some(ErrorText(errors))), None)
    else
      var s' := s.(loading := true, error := None);
      var result :=
        if s.isEdit then UpdateProperty(IdText(s.propertyId), s.formData, send)
        else CreateProperty(s.formData, send);
      match result
      case Ok(saved) => SubmitResult(s'.(loading := false), Some(saved))
      case Err(e) => SubmitResult(s'.(loading := false, error := Some(e.message)), None)
  }

  /** An invalid draft is never sent: the outcome does not depend on the backend, and the error shows. */
  lemma InvalidSubmitSendsNothing(s: FormState, send1: Request -> Outcome<PropertyRecord>, send2: Request -> Outcome<PropertyRecord>)
    requires !Complete(s.formData)
    ensures Submit(s, send1) == Submit(s, send2)
    ensures Submit(s, send1).state.error.Some? && Submit(s, send1).state.error.value != ""
    ensures Submit(s, send1).saved == None
  {
    ValidateFormAcceptsComplete(s.formData);
  }

  /** Every transition keeps a settled state settled. */
  lemma TransitionsKeepSettled(s: FormState, f: DraftField, value: string, checked: bool, parse: string -> Option<int>,
                               propertyId: Option<PropertyId>, send: Request -> Outcome<PropertyRecord>)
    requires Settled(s)
    ensures Settled(s.(formData := ApplyInput(s.formData, f, value, checked, parse)))
    ensures Settled(Submit(s, send).state)
    ensures Settled(PropertyIdChanged(s, propertyId, send))
  {
  }

  /** The component. */
  class PropertyForm {
    var formData: Draft
    var loading: bool
    var error: Option<string>
    var isEdit: bool
    var propertyId: Option<PropertyId>

    function State(): FormState
      reads this
    {
      FormState(formData, loading, error, isEdit, propertyId)
    }

    /** Mounting: the initial state, then the `propertyId` effect. */
    constructor (propertyId: Option<PropertyId>, send: Request -> Outcome<PropertyRecord>)
      ensures State() == PropertyIdChanged(InitialForm, propertyId, send)
      ensures Settled(State())
    {
      formData := DefaultDraft;
      loading := false;
      error := None;
      isEdit := false;
      this.propertyId := propertyId;
      new;
      if IdTruthy(propertyId) {
        isEdit := true;
        FetchProperty(propertyId.value, send);
      } else {
        isEdit := false;
        formData := DefaultDraft;
      }
    }

    /** A new `propertyId` prop: the effect runs only when the prop changes. */
    method SetPropertyId(newId: Option<PropertyId>, send: Request -> Outcome<PropertyRecord>)
      modifies this
      ensures State() == if newId == old(propertyId) then old(State()) else PropertyIdChanged(old(State()), newId, send)
    {
      if newId != propertyId {
        propertyId := newId;
        if IdTruthy(newId) {
          isEdit := true;
          FetchProperty(newId.value, send);
        } else {
          isEdit := false;
          formData := DefaultDraft;
        }
      }
    }

    /** `fetchProperty`. */
    method FetchProperty(id: PropertyId, send: Request -> Outcome<PropertyRecord>)
      modifies this
      ensures State() == LoadProperty(old(State()), id, send)
    {
      loading := true;
      var result := GetPropertyById(id, send);
      match result {
        case Ok(property) =>
          formData := EditDraft(property);
        case Err(err) =>
          error := Some(err.message);
      }
      loading := false;
    }

    /** `handleInputChange`. */
    method HandleInputChange(f: DraftField, value: string, checked: bool, parse: string -> Option<int>)
      modifies this
      ensures State() == old(State()).(formData := ApplyInput(old(formData), f, value, checked, parse))
    {
      formData := ApplyInput(formData, f, value, checked, parse);
    }

    /** `handleSubmit`; `saved` is the record passed to `onSave`. */
    method HandleSubmit(send: Request -> Outcome<PropertyRecord>) returns (saved: Option<PropertyRecord>)
      modifies this
      ensures SubmitResult(State(), saved) == Submit(old(State()), send)
    {
      var validationErrors := ValidateForm(formData);
      if |validationErrors| > 0 {
        error := Some(ErrorText(validationErrors));
        saved := None;
        return;
      }
      loading := true;
      error := None;
      var result;
      if isEdit {
        result := UpdateProperty(IdText(propertyId), formData, send);
      } else {
        result := CreateProperty(formData, send);
      }
      match result {
        case Ok(r) =>
          saved := Some(r);
        case Err(err) =>
          error := Some(err.message);
          saved := None;
      }
      loading := false;
    }
  }
}
