/** The rental listing form at `/rent/list`: its field state, the amenity
    checkboxes, the picked files, and the submit pipeline that checks the
    session, checks the required fields, parses the rent, builds the insert
    record and resets or keeps the form depending on the remote outcome.

    `parseFloat` and `parseInt` are parameters: their exact JavaScript
    semantics (prefix parsing, whitespace, exponents) are not part of this
    model, only that they return a number or NaN. */
module RentListing {
  import opened Wrappers
  import opened Subsequences
  import opened Text
  import opened Session
  import opened Display

  datatype FormData = FormData(
    title: string,
    description: string,
    monthlyRent: string,
    securityDeposit: string,
    propertyType: string,
    bedrooms: string,
    bathrooms: string,
    parking: string,
    area: string,
    furnished: string,
    location: string,
    address: string,
    availableFrom: string,
    leaseDuration: string,
    contactName: string,
    contactPhone: string,
    contactEmail: string,
    amenities: seq<string>)

  /** The initial form, and the one a successful submit resets to. */
  const EmptyForm := FormData("", "", "", "", "", "", "", "", "", "", "", "", "", "", "", "", "", [])

  /** The text fields `handleInputChange` is called with. */
  datatype Field =
    | Title | Description | MonthlyRent | SecurityDeposit | PropertyType
    | Bedrooms | Bathrooms | Parking | Area | Furnished | Location | Address
    | AvailableFrom | LeaseDuration | ContactName | ContactPhone | ContactEmail

  function Get(form: FormData, field: Field): string {
    match field
    case Title => form.title
    case Description => form.description
    case MonthlyRent => form.monthlyRent
    case SecurityDeposit => form.securityDeposit
    case PropertyType => form.propertyType
    case Bedrooms => form.bedrooms
    case Bathrooms => form.bathrooms
    case Parking => form.parking
    case Area => form.area
    case Furnished => form.furnished
    case Location => form.location
    case Address => form.address
    case AvailableFrom => form.availableFrom
    case LeaseDuration => form.leaseDuration
    case ContactName => form.contactName
    case ContactPhone => form.contactPhone
    case ContactEmail => form.contactEmail
  }

  /** `handleInputChange(field, value)`: exactly the named field changes. */
  function SetField(form: FormData, field: Field, value: string): (r: FormData)
    ensures Get(r, field) == value
    ensures forall other :: other != field ==> Get(r, other) == Get(form, other)
    ensures r.amenities == form.amenities
  {
    match field
    case Title => form.(title := value)
    case Description => form.(description := value)
    case MonthlyRent => form.(monthlyRent := value)
    case SecurityDeposit => form.(securityDeposit := value)
    case PropertyType => form.(propertyType := value)
    case Bedrooms => form.(bedrooms := value)
    case Bathrooms => form.(bathrooms := value)
    case Parking => form.(parking := value)
    case Area => form.(area := value)
    case Furnished => form.(furnished := value)
    case Location => form.(location := value)
    case Address => form.(address := value)
    case AvailableFrom => form.(availableFrom := value)
    case LeaseDuration => form.(leaseDuration := value)
    case ContactName => form.(contactName := value)
    case ContactPhone => form.(contactPhone := value)
    case ContactEmail => form.(contactEmail := value)
  }

  /** A form is determined by its text fields and its amenities. */
  lemma FormExtensionality(a: FormData, b: FormData)
    requires forall field :: Get(a, field) == Get(b, field)
    requires a.amenities == b.amenities
    ensures a == b
  {
    assert Get(a, Title) == Get(b, Title) && Get(a, Description) == Get(b, Description);
    assert Get(a, MonthlyRent) == Get(b, MonthlyRent) && Get(a, SecurityDeposit) == Get(b, SecurityDeposit);
    assert Get(a, PropertyType) == Get(b, PropertyType) && Get(a, Bedrooms) == Get(b, Bedrooms);
    assert Get(a, Bathrooms) == Get(b, Bathrooms) && Get(a, Parking) == Get(b, Parking);
    assert Get(a, Area) == Get(b, Area) && Get(a, Furnished) == Get(b, Furnished);
    assert Get(a, Location) == Get(b, Location) && Get(a, Address) == Get(b, Address);
    assert Get(a, AvailableFrom) == Get(b, AvailableFrom) && Get(a, LeaseDuration) == Get(b, LeaseDuration);
    assert Get(a, ContactName) == Get(b, ContactName) && Get(a, ContactPhone) == Get(b, ContactPhone);
    assert Get(a, ContactEmail) == Get(b, ContactEmail);
  }

  /** Re-entering a field's current value leaves the form as it was, and a
      later change to the same field overrides an earlier one. */
  lemma SetFieldLaws(form: FormData, field: Field, v: string, w: string)
    ensures SetField(form, field, Get(form, field)) == form
    ensures SetField(SetField(form, field, v), field, w) == SetField(form, field, w)
  {
    FormExtensionality(SetField(form, field, Get(form, field)), form);
    FormExtensionality(SetField(SetField(form, field, v), field, w), SetField(form, field, w));
  }

  /** The amenities other than `a`. */
  function Other(a: string): string -> bool {
    b => b != a
  }

  /** `handleAmenityToggle(a)`: a checked amenity is removed everywhere it
      occurs, an unchecked one is appended at the end. */
  function ToggleAmenity(list: seq<string>, a: string): (r: seq<string>)
    ensures a in r <==> a !in list
    ensures a in list ==> IsSubsequence(r, list) && forall b :: b != a ==> multiset(r)[b] == multiset(list)[b]
    ensures a !in list ==> |r| == |list| + 1 && r[..|list|] == list && r[|list|] == a
  {
    if a in list then Filter(list, Other(a)) else list + [a]
  }

  /** Toggling an unchecked amenity twice restores the list. */
  lemma ToggleTwiceRestores(list: seq<string>, a: string)
    requires a !in list
    ensures ToggleAmenity(ToggleAmenity(list, a), a) == list
  {
    FilterAppend(list, [a], Other(a));
    FilterKeepsAll(list, Other(a));
    assert [a][1..] == [];
  }

  /** No amenity listed twice. */
  ghost predicate Distinct(list: seq<string>) {
    forall b :: multiset(list)[b] <= 1
  }

  /** The checkboxes never produce a duplicate: toggling keeps the list
      duplicate-free. */
  lemma ToggleKeepsDistinct(list: seq<string>, a: string)
    requires Distinct(list)
    ensures Distinct(ToggleAmenity(list, a))
  {
    if a !in list {
      var r := list + [a];
      assert multiset(r) == multiset(list) + multiset{a};
    }
  }

  datatype File = File(name: string, size: int)

  /** `handleFileChange`: the picked files (`files || []`) go after the ones
      already chosen. */
  function AddFiles(files: seq<File>, picked: Option<seq<File>>): (r: seq<File>)
    ensures |r| == |files| + |picked.GetOr([])|
    ensures r[..|files|] == files && r[|files|..] == picked.GetOr([])
  {
    files + picked.GetOr([])
  }

  /** The list without its element at `index`, if there is one. */
  function DropAt<T>(xs: seq<T>, index: int): (r: seq<T>)
    ensures 0 <= index < |xs| ==> |r| == |xs| - 1
    ensures 0 <= index < |xs| ==> forall i :: 0 <= i < |r| ==> r[i] == if i < index then xs[i] else xs[i + 1]
    ensures !(0 <= index < |xs|) ==> r == xs
  {
    if 0 <= index < |xs| then xs[..index] + xs[index + 1..] else xs
  }

  /** Removing the file just picked restores the earlier list, and removing
      a file before adding more equals removing it afterwards. */
  lemma AddThenRemove(files: seq<File>, f: File, more: seq<File>, index: int)
    requires 0 <= index < |files|
    ensures DropAt(AddFiles(files, Some([f])), |files|) == files
    ensures DropAt(AddFiles(files, Some(more)), index) == AddFiles(DropAt(files, index), Some(more))
  {
    assert (files + [f])[..|files|] == files;
    assert (files + more)[..index] == files[..index];
    assert (files + more)[index + 1..] == files[index + 1..] + more;
  }

  /** `removeFile(index)`: keeps every file whose position differs from
      `index`, so an index outside the list removes nothing. */
  method RemoveFileAt(files: seq<File>, index: int) returns (r: seq<File>)
    ensures r == DropAt(files, index)
    ensures 0 <= index < |files| ==> r == files[..index] + files[index + 1..]
    ensures !(0 <= index < |files|) ==> r == files
  {
    r := [];
    var k := 0;
    while k < |files|
      invariant 0 <= k <= |files|
      invariant 0 <= index < k ==> r == files[..index] + files[index + 1..k]
      invariant !(0 <= index < k) ==> r == files[..k]
    {
      if k != index {
        r := r + [files[k]];
      }
      k := k + 1;
    }
  }

  /** What `parseFloat`/`parseInt` return. */
  datatype Num = Finite(value: int) | NaN

  /** The row sent to `rental_properties`. */
  datatype RentalInsert = RentalInsert(
    userId: string,
    title: string,
    description: Option<string>,
    monthlyRent: int,
    securityDeposit: Option<Num>,
    propertyType: string,
    bedrooms: Option<Num>,
    bathrooms: Option<Num>,
    parking: Option<Num>,
    area: Option<Num>,
    furnished: Option<string>,
    location: Option<string>,
    address: Option<string>,
    availableFrom: Option<string>,
    leaseDuration: Option<string>,
    contactName: Option<string>,
    contactPhone: Option<string>,
    contactEmail: Option<string>,
    amenities: Option<seq<string>>,
    images: seq<string>)

  /** `s || null`. */
  function OrNull(s: string): (r: Option<string>)
    ensures r == None <==> s == ""
    ensures r.GetOr("") == s
  {
    if s == "" then None else Some(s)
  }

  /** `s ? parse(s) : null`. */
  function ParsedOrNull(s: string, parse: string -> Num): (r: Option<Num>)
    ensures r == None <==> s == ""
    ensures r.Some? ==> r.value == parse(s)
  {
    if s == "" then None else Some(parse(s))
  }

  /** The insert record built from a validated form and its parsed rent. */
  function BuildRecord(userId: string, form: FormData, rent: int, parseFloat: string -> Num, parseInt: string -> Num): (r: RentalInsert)
    ensures r.userId == userId && r.monthlyRent == rent
    ensures r.amenities == None <==> form.amenities == []
    ensures r.images == []
    ensures r.securityDeposit == None <==> form.securityDeposit == ""
    ensures r.securityDeposit.Some? ==> r.securityDeposit.value == parseFloat(StripCommas(form.securityDeposit))
    ensures r.title == form.title && r.propertyType == form.propertyType
    ensures r.description == OrNull(form.description)
    ensures r.furnished == OrNull(form.furnished) && r.location == OrNull(form.location)
    ensures r.address == OrNull(form.address) && r.availableFrom == OrNull(form.availableFrom)
    ensures r.leaseDuration == OrNull(form.leaseDuration) && r.contactName == OrNull(form.contactName)
    ensures r.contactPhone == OrNull(form.contactPhone) && r.contactEmail == OrNull(form.contactEmail)
    ensures r.bedrooms == ParsedOrNull(form.bedrooms, parseInt)
    ensures r.bathrooms == ParsedOrNull(form.bathrooms, parseInt)
    ensures r.parking == ParsedOrNull(form.parking, parseInt)
    ensures r.area == ParsedOrNull(form.area, parseInt)
  {
    RentalInsert(
      userId := userId,
      title := form.title,
      description := OrNull(form.description),
      monthlyRent := rent,
      securityDeposit := if form.securityDeposit == "" then None else Some(parseFloat(StripCommas(form.securityDeposit))),
      propertyType := form.propertyType,
      bedrooms := ParsedOrNull(form.bedrooms, parseInt),
      bathrooms := ParsedOrNull(form.bathrooms, parseInt),
      parking := ParsedOrNull(form.parking, parseInt),
      area := ParsedOrNull(form.area, parseInt),
      furnished := OrNull(form.furnished),
      location := OrNull(form.location),
      address := OrNull(form.address),
      availableFrom := OrNull(form.availableFrom),
      leaseDuration := OrNull(form.leaseDuration),
      contactName := OrNull(form.contactName),
      contactPhone := OrNull(form.contactPhone),
      contactEmail := OrNull(form.contactEmail),
      amenities := if |form.amenities| > 0 then Some(form.amenities) else None,
      images := [])
  }

  /** The record loses none of the form's text: every text field and the
      amenities can be read back from it, an absent value standing for the
      empty string or the empty list. */
  lemma RecordKeepsText(userId: string, form: FormData, rent: int, parseFloat: string -> Num, parseInt: string -> Num)
    ensures var r := BuildRecord(userId, form, rent, parseFloat, parseInt);
      && r.title == form.title && r.propertyType == form.propertyType
      && r.description.GetOr("") == form.description
      && r.furnished.GetOr("") == form.furnished
      && r.location.GetOr("") == form.location
      && r.address.GetOr("") == form.address
      && r.availableFrom.GetOr("") == form.availableFrom
      && r.leaseDuration.GetOr("") == form.leaseDuration
      && r.contactName.GetOr("") == form.contactName
      && r.contactPhone.GetOr("") == form.contactPhone
      && r.contactEmail.GetOr("") == form.contactEmail
      && r.amenities.GetOr([]) == form.amenities
  {
  }

  datatype FormState = FormState(form: FormData, files: seq<File>, isSubmitting: bool)

  /** What the remote insert gave back; a returned error is rethrown, so it
      and a thrown exception take the same path, carrying `error.message`. */
  datatype InsertResult = InsertOk | InsertError(message: string)

  datatype Outcome = LoginRequired | MissingRequired | Failed(message: string) | Listed

  /** The state after submit, the outcome (toast), the record sent if any,
      and the navigation target if any. */
  datatype SubmitStep = SubmitStep(state: FormState, outcome: Outcome, sent: Option<RentalInsert>, redirect: Option<string>)

  const InvalidRent := "Invalid monthly rent format"
  const ListingFallback := "Failed to list rental property. Please try again."

  predicate RequiredPresent(form: FormData) {
    form.title != "" && form.monthlyRent != "" && form.propertyType != ""
  }

  /** `handleSubmit`. The session check comes first and redirects to
      `/auth`; the required-field check comes next; both return before the
      submitting flag is raised. After that the flag is cleared by `finally`
      whatever happens. */
  function Submit(user: Option<User>, s: FormState, parseFloat: string -> Num, parseInt: string -> Num, remote: InsertResult): (out: SubmitStep)
    ensures out.sent.Some? ==> user.Some? && RequiredPresent(s.form)
    ensures out.redirect.Some? <==> user == None
    ensures out.redirect.Some? ==> out.redirect.value == "/auth"
    ensures user == None ==> out.outcome == LoginRequired && out.state == s
    ensures user.Some? && !RequiredPresent(s.form) ==> out.outcome == MissingRequired && out.state == s
    ensures user.Some? && RequiredPresent(s.form) ==> !out.state.isSubmitting
    ensures out.sent.Some? <==> user.Some? && RequiredPresent(s.form) && parseFloat(StripCommas(s.form.monthlyRent)).Finite?
    ensures out.sent.Some? ==> Finite(out.sent.value.monthlyRent) == parseFloat(StripCommas(s.form.monthlyRent))
    ensures out.sent.Some? ==> out.sent.value.userId == user.value.id
    ensures out.sent.Some? ==> out.sent.value == BuildRecord(user.value.id, s.form, out.sent.value.monthlyRent, parseFloat, parseInt)
    ensures user.Some? && RequiredPresent(s.form) && parseFloat(StripCommas(s.form.monthlyRent)).NaN? ==>
              out.outcome == Failed(InvalidRent) && out.state == s.(isSubmitting := false)
    ensures out.sent.Some? && remote.InsertError? ==> out.outcome == Failed(OrFallback(remote.message, ListingFallback))
    ensures out.outcome == Listed <==> out.sent.Some? && remote == InsertOk
    ensures out.outcome == Listed ==> out.state == FormState(EmptyForm, [], false)
    ensures out.sent.Some? && remote.InsertError? ==> out.state == s.(isSubmitting := false)
  {
    match user
    case None => SubmitStep(s, LoginRequired, None, Some("/auth"))
    case Some(u) =>
      if !RequiredPresent(s.form) then SubmitStep(s, MissingRequired, None, None)
      else
        match parseFloat(StripCommas(s.form.monthlyRent))
        case NaN => SubmitStep(s.(isSubmitting := false), Failed(InvalidRent), None, None)
        case Finite(rent) =>
          var record := BuildRecord(u.id, s.form, rent, parseFloat, parseInt);
          match remote
          case InsertOk => SubmitStep(FormState(EmptyForm, [], false), Listed, Some(record), None)
          case InsertError(m) =>
            SubmitStep(s.(isSubmitting := false), Failed(OrFallback(m, ListingFallback)), Some(record), None)
  }

  /** The form does not reject a zero or negative rent: once it parses, the
      record is sent with that value. */
  lemma NonPositiveRentAccepted(u: User, s: FormState, parseFloat: string -> Num, parseInt: string -> Num, rent: int)
    requires RequiredPresent(s.form)
    requires parseFloat(StripCommas(s.form.monthlyRent)) == Finite(rent) && rent <= 0
    ensures Submit(Some(u), s, parseFloat, parseInt, InsertOk).outcome == Listed
    ensures Submit(Some(u), s, parseFloat, parseInt, InsertOk).sent.value.monthlyRent == rent
  {
  }

  /** The page shows a login prompt instead of the form without a user. */
  datatype Screen = LoginPrompt | ListingForm(buttonDisabled: bool, buttonLabel: string)

  function ScreenFor(user: Option<User>, s: FormState): (sc: Screen)
    ensures sc == LoginPrompt <==> user == None
    ensures sc.ListingForm? ==> sc.buttonDisabled == s.isSubmitting
    ensures sc.ListingForm? ==> sc.buttonLabel == (if s.isSubmitting then "Listing Property..." else "List My Rental Property")
  {
    if user == None then LoginPrompt
    else ListingForm(s.isSubmitting, if s.isSubmitting then "Listing Property..." else "List My Rental Property")
  }
}
