/** The five-step listing wizard of client/src/pages/CreateListing.tsx: the
    per-step checks, the step counter, the gate in front of the create
    request, and the editors of the amenity list, the image list and the
    capacity counters. Prices are integer cents and bathrooms half-units;
    the postal-code check of the country helpers is a parameter. */
module CreateListing {
  import opened Common
  import opened ListingModel
  import ListingRoutes

  const FirstStep: int := 1
  const LastStep: int := 5

  datatype ListingForm = ListingForm(
    title: string,
    description: string,
    propertyType: string,
    location: Location,
    price: int,
    currency: string,
    images: seq<Image>,
    amenities: seq<string>,
    capacity: Capacity,
    rules: Rules)

  /** The form as the wizard opens it: empty texts, no type, country USA,
      price 0, one guest, bedroom, bathroom and bed, and the default house
      rules. */
  const InitialForm: ListingForm := ListingForm(
    "", "", "", Location("", "", "", "USA", ""), 0, "USD", [], [],
    Capacity(1, 1, 2, 1), Rules("3:00 PM", "11:00 AM", 1, 30))

  // ---------------------------------------------------------------------------
  // Step checks

  /** `validateStep(step)`. `validPostal(country, zip)` is the country
      helpers' postal-code check. */
  predicate StepValid(f: ListingForm, step: int, validPostal: (string, string) -> bool) {
    if step == 1 then
      |Trim(f.title)| >= 5 && |Trim(f.description)| >= 20 && f.propertyType != []
    else if step == 2 then
      && Trim(f.location.address) != [] && Trim(f.location.city) != []
      && Trim(f.location.state) != [] && Trim(f.location.zipCode) != []
      && validPostal(f.location.country, f.location.zipCode)
    else if step == 3 then
      && f.price > 0 && f.capacity.guests > 0 && f.capacity.bedrooms >= 0
      && f.capacity.bathroomHalves > 0 && f.capacity.beds > 0
    else if step == 4 then
      |f.images| > 0
    else
      step == 5
  }

  /** `[1, 2, 3, 4, 5].every(validateStep)`. */
  predicate AllStepsValid(f: ListingForm, validPostal: (string, string) -> bool) {
    forall step :: FirstStep <= step <= LastStep ==> StepValid(f, step, validPostal)
  }

  /** The last step is always passable and no step outside 1..5 ever is. */
  lemma StepValidBounds(f: ListingForm, step: int, validPostal: (string, string) -> bool)
    ensures StepValid(f, 5, validPostal)
    ensures (step < FirstStep || step > LastStep) ==> !StepValid(f, step, validPostal)
  {
  }

  /** The fresh form stops at the first step: it has no title, no address,
      no price and no image. */
  lemma InitialFormIncomplete(validPostal: (string, string) -> bool)
    ensures !StepValid(InitialForm, 1, validPostal) && !StepValid(InitialForm, 2, validPostal)
    ensures !StepValid(InitialForm, 3, validPostal) && !StepValid(InitialForm, 4, validPostal)
    ensures CapacityInBounds(InitialForm.capacity)
  {
    assert !StepValid(InitialForm, 1, validPostal) by {
      assert Trim(InitialForm.title) == [];
    }
    assert !StepValid(InitialForm, 2, validPostal) by {
      assert Trim(InitialForm.location.address) == [];
    }
    assert !StepValid(InitialForm, 3, validPostal) by {
      assert InitialForm.price == 0;
    }
  }

  /** The request body the wizard posts, as the server reads it. */
  function DraftOf(f: ListingForm): (d: ListingDraft)
    ensures |d.images| == |f.images|
    ensures forall i :: 0 <= i < |f.images| ==> d.images[i] == ImageDraft(f.images[i].url, Some(f.images[i].alt))
  {
    ListingDraft(f.title, f.description, f.propertyType, f.location, f.price, Some(f.currency),
                 seq(|f.images|, i requires 0 <= i < |f.images| => ImageDraft(f.images[i].url, Some(f.images[i].alt))),
                 f.amenities, f.capacity,
                 RulesDraft(Some(f.rules.checkIn), Some(f.rules.checkOut), Some(f.rules.minStay), Some(f.rules.maxStay)),
                 None, None, [])
  }

  /** A form that passes every step passes the server's validators, given
      the bounds the wizard leaves to the server: a known type, a title of at
      most 100 and a description of at most 2000 characters, a country and a
      three-letter currency. The wizard's own checks are weaker than the
      server's exactly in those bounds. */
  lemma WizardFormMeetsServer(f: ListingForm, validPostal: (string, string) -> bool)
    requires AllStepsValid(f, validPostal)
    ensures ListingRoutes.CreateBodyValid(DraftOf(f)) <==>
      && IsPropertyType(f.propertyType)
      && |Trim(f.title)| <= 100 && |Trim(f.description)| <= 2000
      && Trim(f.location.country) != [] && |f.currency| == 3
  {
    assert StepValid(f, 1, validPostal) && StepValid(f, 2, validPostal);
    assert StepValid(f, 3, validPostal) && StepValid(f, 4, validPostal);
  }

  // ---------------------------------------------------------------------------
  // List editors

  /** `handleAmenityToggle`: a selected amenity is removed (every copy of
      it), any other is appended. */
  function ToggleAmenity(amenities: seq<string>, a: string): (r: seq<string>)
    ensures (a in r) <==> (a !in amenities)
    ensures forall b :: b != a ==> (b in r <==> b in amenities)
  {
    if a in amenities then RemoveAll(amenities, a) else amenities + [a]
  }

  /** Toggling an amenity twice gives back the same set of amenities, and
      the very same list when it was not selected. */
  lemma ToggleAmenityTwice(amenities: seq<string>, a: string)
    ensures (set x | x in ToggleAmenity(ToggleAmenity(amenities, a), a)) == (set x | x in amenities)
    ensures a !in amenities ==> ToggleAmenity(ToggleAmenity(amenities, a), a) == amenities
  {
    if a !in amenities {
      RemoveAllConcat(amenities, [a], a);
      assert RemoveAll([a], a) == [];
      RemoveAllAbsent(amenities, a);
    }
  }

  /** `handleImageAdd`: a URL the prompt returned, if any and non-empty, is
      appended with an empty alt text. */
  function AddImage(images: seq<Image>, url: Option<string>): (r: seq<Image>)
    ensures url.Some? && url.value != [] ==> r == images + [Image(url.value, "")]
    ensures url.None? || url.value == [] ==> r == images
  {
    if url.Some? && url.value != [] then images + [Image(url.value, "")] else images
  }

  /** `handleImageRemove(index)`: the image at `index` is gone and the others
      keep their order; an index past the end changes nothing. */
  function RemoveImage(images: seq<Image>, index: nat): (r: seq<Image>)
    ensures index < |images| ==> |r| == |images| - 1
    ensures index < |images| ==> forall j :: 0 <= j < |r| ==> r[j] == images[if j < index then j else j + 1]
    ensures index >= |images| ==> r == images
    ensures multiset(r) <= multiset(images)
  {
    if index < |images| then
      assert images == images[..index] + [images[index]] + images[index + 1..];
      images[..index] + images[index + 1..]
    else images
  }

  /** `handleImageAltChange(index, alt)`: only that image's alt text
      changes. */
  function SetImageAlt(images: seq<Image>, index: nat, alt: string): (r: seq<Image>)
    ensures |r| == |images|
    ensures forall j :: 0 <= j < |images| && j != index ==> r[j] == images[j]
    ensures index < |images| ==> r[index] == Image(images[index].url, alt)
  {
    seq(|images|, j requires 0 <= j < |images| => if j == index then images[j].(alt := alt) else images[j])
  }

  /** Removing an image never empties a list of two or more, and the wizard's
      image step then still passes. */
  lemma RemoveKeepsImageStep(f: ListingForm, index: nat, validPostal: (string, string) -> bool)
    requires |f.images| >= 2
    ensures StepValid(f.(images := RemoveImage(f.images, index)), 4, validPostal)
  {
  }

  // ---------------------------------------------------------------------------
  // Capacity counters

  datatype CapacityField = Guests | Bedrooms | Bathrooms | Beds

  /** The minus buttons: guests and beds stop at 1, bedrooms at 0, bathrooms
      at one half. */
  function Decrement(c: Capacity, field: CapacityField): (r: Capacity)
    ensures field == Guests ==> r.guests >= 1 && r.(guests := c.guests) == c
    ensures field == Bedrooms ==> r.bedrooms >= 0 && r.(bedrooms := c.bedrooms) == c
    ensures field == Bathrooms ==> r.bathroomHalves >= 1 && r.(bathroomHalves := c.bathroomHalves) == c
    ensures field == Beds ==> r.beds >= 1 && r.(beds := c.beds) == c
  {
    match field
    case Guests => c.(guests := Max(1, c.guests - 1))
    case Bedrooms => c.(bedrooms := Max(0, c.bedrooms - 1))
    case Bathrooms => c.(bathroomHalves := Max(1, c.bathroomHalves - 1))
    case Beds => c.(beds := Max(1, c.beds - 1))
  }

  function Max(a: int, b: int): int {
    if a >= b then a else b
  }

  /** The plus buttons: one more of the field (half a bathroom). */
  function Increment(c: Capacity, field: CapacityField): (r: Capacity)
  {
    match field
    case Guests => c.(guests := c.guests + 1)
    case Bedrooms => c.(bedrooms := c.bedrooms + 1)
    case Bathrooms => c.(bathroomHalves := c.bathroomHalves + 1)
    case Beds => c.(beds := c.beds + 1)
  }

  /** The counters a form may reach: at least one guest and one bed, no
      negative bedrooms, at least half a bathroom. */
  predicate CapacityInBounds(c: Capacity) {
    c.guests >= 1 && c.bedrooms >= 0 && c.bathroomHalves >= 1 && c.beds >= 1
  }

  /** The buttons keep the counters in bounds, a minus click undoes a plus
      click, and counters in bounds pass the capacity part of step 3. */
  lemma CountersStayInBounds(c: Capacity, field: CapacityField)
    requires CapacityInBounds(c)
    ensures CapacityInBounds(Decrement(c, field)) && CapacityInBounds(Increment(c, field))
    ensures Decrement(Increment(c, field), field) == c
    ensures c.guests > 0 && c.bedrooms >= 0 && c.bathroomHalves > 0 && c.beds > 0
  {
  }

  // ---------------------------------------------------------------------------
  // Field editors

  /** The inputs wired to `handleInputChange`, the currency select among
      them. */
  datatype TextField = Title | Description | Address | City | State | Country | ZipCode
                     | Currency | CheckInTime | CheckOutTime

  /** The inputs wired to `handleNumberChange`. */
  datatype NumberField = Price | MinStay | MaxStay

  /** The current text of a field. */
  function TextOf(f: ListingForm, field: TextField): string {
    match field
    case Title => f.title
    case Description => f.description
    case Address => f.location.address
    case City => f.location.city
    case State => f.location.state
    case Country => f.location.country
    case ZipCode => f.location.zipCode
    case Currency => f.currency
    case CheckInTime => f.rules.checkIn
    case CheckOutTime => f.rules.checkOut
  }

  /** The current value of a number field. */
  function NumberOf(f: ListingForm, field: NumberField): int {
    match field
    case Price => f.price
    case MinStay => f.rules.minStay
    case MaxStay => f.rules.maxStay
  }

  /** The parts of the form no text or number input touches. */
  predicate SameSelections(f: ListingForm, g: ListingForm) {
    && f.propertyType == g.propertyType && f.images == g.images
    && f.amenities == g.amenities && f.capacity == g.capacity
  }

  /** `handleInputChange`: the named field (a `location.*` or `rules.*` one
      inside its parent object) takes the typed text as it is; every other
      input keeps its value. */
  function EditText(f: ListingForm, field: TextField, value: string): (r: ListingForm)
    ensures TextOf(r, field) == value
    ensures forall g :: g != field ==> TextOf(r, g) == TextOf(f, g)
    ensures forall n :: NumberOf(r, n) == NumberOf(f, n)
    ensures SameSelections(r, f)
  {
    match field
    case Title => f.(title := value)
    case Description => f.(description := value)
    case Address => f.(location := f.location.(address := value))
    case City => f.(location := f.location.(city := value))
    case State => f.(location := f.location.(state := value))
    case Country => f.(location := f.location.(country := value))
    case ZipCode => f.(location := f.location.(zipCode := value))
    case Currency => f.(currency := value)
    case CheckInTime => f.(rules := f.rules.(checkIn := value))
    case CheckOutTime => f.(rules := f.rules.(checkOut := value))
  }

  /** `handleNumberChange`: `parseInt(value) || 0` (`parseFloat` for the
      price), so an entry that does not parse stores 0. `parsed` is the
      parser's answer, `None` for `NaN`. */
  function EditNumber(f: ListingForm, field: NumberField, parsed: Option<int>): (r: ListingForm)
    ensures parsed.Some? ==> NumberOf(r, field) == parsed.value
    ensures parsed.None? ==> NumberOf(r, field) == 0
    ensures forall n :: n != field ==> NumberOf(r, n) == NumberOf(f, n)
    ensures forall t :: TextOf(r, t) == TextOf(f, t)
    ensures SameSelections(r, f)
  {
    var v := parsed.GetOr(0);
    match field
    case Price => f.(price := v)
    case MinStay => f.(rules := f.rules.(minStay := v))
    case MaxStay => f.(rules := f.rules.(maxStay := v))
  }

  /** The fresh form after the inputs: a type button, the text inputs of the
      basics and location steps, the price input and one added photo. */
  function FilledIn(propertyType: string, title: string, description: string, address: string,
                    city: string, state: string, zipCode: string, price: Option<int>, url: string): (r: ListingForm)
    ensures r.title == title && r.description == description && r.propertyType == propertyType
    ensures r.location == Location(address, city, state, InitialForm.location.country, zipCode)
    ensures r.price == price.GetOr(0) && r.capacity == InitialForm.capacity
    ensures r.images == if url != [] then [Image(url, "")] else []
  {
    var basics := EditText(EditText(InitialForm.(propertyType := propertyType), Title, title), Description, description);
    var located := EditText(EditText(EditText(EditText(basics, Address, address), City, city), State, state),
                            ZipCode, zipCode);
    var priced := EditNumber(located, Price, price);
    priced.(images := AddImage(priced.images, Some(url)))
  }

  /** The inputs alone can complete the fresh form: whatever is typed that
      meets the basics, location and pricing checks, with any type and any
      photo url, passes every step. */
  lemma InputsCompleteInitialForm(propertyType: string, title: string, description: string, address: string,
                                  city: string, state: string, zipCode: string, price: int, url: string,
                                  validPostal: (string, string) -> bool)
    requires propertyType != [] && |Trim(title)| >= 5 && |Trim(description)| >= 20
    requires Trim(address) != [] && Trim(city) != [] && Trim(state) != [] && Trim(zipCode) != []
    requires validPostal(InitialForm.location.country, zipCode)
    requires price > 0 && url != []
    ensures AllStepsValid(FilledIn(propertyType, title, description, address, city, state, zipCode, Some(price), url),
                          validPostal)
  {
    var f := FilledIn(propertyType, title, description, address, city, state, zipCode, Some(price), url);
    forall step | FirstStep <= step <= LastStep
      ensures StepValid(f, step, validPostal)
    {
    }
  }

  // ---------------------------------------------------------------------------
  // The wizard

  /** How the create request ended. */
  datatype SubmitResponse = Created | NoListingReturned | Unauthorized | NotAHost | Failed(message: Option<string>)

  datatype WizardError =
    | Incomplete
    | NotCreated
    | SessionExpired
    | HostAccountNeeded
    | HostsOnly
    | RequestFailed(message: string)

  datatype Route = HostDashboardPage | LoginPage

  const CreateFallback: string := "Failed to create listing. Please try again."

  class Wizard {
    var currentStep: int
    var form: ListingForm
    var error: Option<WizardError>

    /** The step counter stays within the five steps, and the type is empty
        or one the type buttons offer. */
    ghost predicate Valid()
      reads this
    {
      && FirstStep <= currentStep <= LastStep
      && (form.propertyType == [] || IsPropertyType(form.propertyType))
      && CapacityInBounds(form.capacity)
    }

    /** The page as it first renders, before the mount effect runs. */
    constructor ()
      ensures Valid() && currentStep == FirstStep && form == InitialForm && error.None?
    {
      currentStep := FirstStep;
      form := InitialForm;
      error := None;
    }

    /** The mount effect, run again whenever the signed-in user changes:
        nobody signed in is sent to the login page; a signed-in user who is
        not a host (an admin included) is shown the hosts-only error; a host
        is left as is. `role` is the user's role, `None` when signed out. */
    method Mount(role: Option<Role>) returns (navigate: Option<Route>)
      requires Valid()
      modifies this`error
      ensures Valid()
      ensures role.None? ==> navigate == Some(LoginPage) && error == old(error)
      ensures role.Some? && role.value != Host ==> navigate.None? && error == Some(HostsOnly)
      ensures role == Some(Host) ==> navigate.None? && error == old(error)
    {
      navigate := None;
      if role.None? {
        navigate := Some(LoginPage);
      } else if role.value != Host {
        error := Some(HostsOnly);
      }
    }

    /** `nextStep`: one step forward when the current step passes its check,
        never past the last. */
    method NextStep(validPostal: (string, string) -> bool)
      requires Valid()
      modifies this`currentStep
      ensures Valid()
      ensures StepValid(form, old(currentStep), validPostal) ==>
        currentStep == (if old(currentStep) + 1 < LastStep then old(currentStep) + 1 else LastStep)
      ensures !StepValid(form, old(currentStep), validPostal) ==> currentStep == old(currentStep)
    {
      if StepValid(form, currentStep, validPostal) {
        currentStep := if currentStep + 1 < LastStep then currentStep + 1 else LastStep;
      }
    }

    /** `prevStep`: one step back, never before the first. */
    method PrevStep()
      requires Valid()
      modifies this`currentStep
      ensures Valid()
      ensures currentStep == if old(currentStep) - 1 > FirstStep then old(currentStep) - 1 else FirstStep
    {
      currentStep := if currentStep - 1 > FirstStep then currentStep - 1 else FirstStep;
    }

    /** `handleInputChange` on one of the text inputs. */
    method EditTextOf(field: TextField, value: string)
      requires Valid()
      modifies this`form
      ensures Valid() && form == EditText(old(form), field, value)
    {
      form := EditText(form, field, value);
    }

    /** `handleNumberChange` on the price or a stay bound. */
    method EditNumberOf(field: NumberField, parsed: Option<int>)
      requires Valid()
      modifies this`form
      ensures Valid() && form == EditNumber(old(form), field, parsed)
    {
      form := EditNumber(form, field, parsed);
    }

    /** `handleTypeSelect`, which the type buttons call with one of the
        listed types. */
    method SelectType(t: string)
      requires Valid() && IsPropertyType(t)
      modifies this`form
      ensures Valid() && form == old(form).(propertyType := t)
    {
      form := form.(propertyType := t);
    }

    method ToggleAmenityOf(a: string)
      requires Valid()
      modifies this`form
      ensures Valid() && form == old(form).(amenities := ToggleAmenity(old(form).amenities, a))
    {
      form := form.(amenities := ToggleAmenity(form.amenities, a));
    }

    method AddImageOf(url: Option<string>)
      requires Valid()
      modifies this`form
      ensures Valid() && form == old(form).(images := AddImage(old(form).images, url))
    {
      form := form.(images := AddImage(form.images, url));
    }

    method RemoveImageAt(index: nat)
      requires Valid()
      modifies this`form
      ensures Valid() && form == old(form).(images := RemoveImage(old(form).images, index))
    {
      form := form.(images := RemoveImage(form.images, index));
    }

    method SetImageAltAt(index: nat, alt: string)
      requires Valid()
      modifies this`form
      ensures Valid() && form == old(form).(images := SetImageAlt(old(form).images, index, alt))
    {
      form := form.(images := SetImageAlt(form.images, index, alt));
    }

    /** A click on a minus or plus button of the capacity counters. */
    method Count(field: CapacityField, up: bool)
      requires Valid()
      modifies this`form
      ensures Valid()
      ensures form == old(form).(capacity := if up then Increment(old(form).capacity, field)
                                             else Decrement(old(form).capacity, field))
    {
      CountersStayInBounds(form.capacity, field);
      form := form.(capacity := if up then Increment(form.capacity, field) else Decrement(form.capacity, field));
    }

    /** `handleSubmit`: off the last step nothing happens; on it an incomplete
        form only sets an error; a complete one is posted (`sent`) and the
        server's answer (`response`) decides the error and the page the
        wizard moves to. */
    method Submit(validPostal: (string, string) -> bool, response: SubmitResponse)
      returns (sent: Option<ListingForm>, navigate: Option<Route>)
      requires Valid()
      modifies this`error
      ensures sent.Some? <==> currentStep == LastStep && AllStepsValid(form, validPostal)
      ensures sent.Some? ==> sent.value == form
      ensures currentStep != LastStep ==> error == old(error) && navigate.None?
      ensures currentStep == LastStep && !AllStepsValid(form, validPostal) ==>
        error == Some(Incomplete) && navigate.None?
      ensures sent.Some? ==>
        && (response == Created ==> error.None? && navigate == Some(HostDashboardPage))
        && (response == Unauthorized ==> error == Some(SessionExpired) && navigate == Some(LoginPage))
        && (response == NoListingReturned ==> error == Some(NotCreated) && navigate.None?)
        && (response == NotAHost ==> error == Some(HostAccountNeeded) && navigate.None?)
        && (response.Failed? ==>
              && error == Some(RequestFailed(if response.message.Some? && response.message.value != []
                                             then response.message.value else CreateFallback))
              && navigate.None?)
    {
      sent, navigate := None, None;
      if currentStep != LastStep {
        return;
      }
      if !AllStepsValid(form, validPostal) {
        error := Some(Incomplete);
        return;
      }
      error := None;
      sent := Some(form);
      match response {
        case Created =>
          navigate := Some(HostDashboardPage);
        case NoListingReturned =>
          error := Some(NotCreated);
        case Unauthorized =>
          error := Some(SessionExpired);
          navigate := Some(LoginPage);
        case NotAHost =>
          error := Some(HostAccountNeeded);
        case Failed(m) =>
          error := Some(RequestFailed(if m.Some? && m.value != [] then m.value else CreateFallback));
      }
    }
  }
}
