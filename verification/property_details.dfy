/** The property detail page at `/property/:id/:type`: which table it
    reads, how the single-row fetch moves the page between its loading,
    not-found and loaded screens, and which parts of a loaded property are
    rendered. */
module PropertyDetails {
  import opened Wrappers
  import opened Display
  import opened Pricing
  import MyProperties

  /** A row of either table, as the page's `PropertyDetails` interface
      reads it: sale rows carry `price`, rental rows `monthlyRent` and the
      rental-only columns. */
  datatype DetailRow = DetailRow(
    id: string,
    title: string,
    description: Option<string>,
    price: Option<int>,
    monthlyRent: Option<int>,
    securityDeposit: Option<int>,
    propertyType: string,
    bedrooms: Option<int>,
    bathrooms: Option<int>,
    parking: Option<int>,
    area: Option<int>,
    furnished: Option<string>,
    location: Option<string>,
    address: Option<string>,
    availableFrom: Option<string>,
    leaseDuration: Option<string>,
    contactName: Option<string>,
    contactPhone: Option<string>,
    contactEmail: Option<string>,
    amenities: Option<seq<string>>,
    images: Option<seq<string>>,
    createdAt: string)

  /** `{ ...data, type }`: the row tagged with the route's `type` segment,
      whatever that segment is. */
  datatype Property = Property(row: DetailRow, kind: string)

  datatype Table = SaleProperties | RentalProperties

  /** The table the page reads: "sale" selects the sale table, every other
      value (including "rental" and any misspelling) the rental table. */
  function TableFor(kind: string): (t: Table)
    ensures t == SaleProperties <==> kind == "sale"
  {
    if kind == "sale" then SaleProperties else RentalProperties
  }

  /** What `.select('*').eq('id', id).single()` gave back. */
  datatype SingleResult = Found(row: DetailRow) | FetchError | FetchThrew

  datatype PageState = PageState(property: Option<Property>, loading: bool)

  const Initial := PageState(None, true)

  /** The query the page issues, if any. */
  datatype Query = Query(table: Table, id: string)

  datatype LoadStep = LoadStep(state: PageState, query: Option<Query>, errorToast: bool)

  /** The mount effect and `fetchProperty`. Without both route segments no
      query is made and the page keeps its initial state; otherwise one
      query is made on the table the type selects, an error or exception
      leaves no property, and `finally` ends loading. */
  function Load(id: Option<string>, kind: Option<string>, result: SingleResult): (out: LoadStep)
    ensures out.query.Some? <==> TextPresent(id) && TextPresent(kind)
    ensures out.query.Some? ==> out.query.value == Query(TableFor(kind.value), id.value)
    ensures out.query == None ==> out.state == Initial && !out.errorToast
    ensures out.query.Some? ==> !out.state.loading
    ensures out.query.Some? && result.Found? ==> out.state.property == Some(Property(result.row, kind.value))
    ensures out.query.Some? && !result.Found? ==> out.state.property == None && out.errorToast
    ensures out.errorToast <==> out.query.Some? && !result.Found?
  {
    if !(TextPresent(id) && TextPresent(kind)) then
      LoadStep(Initial, None, false)
    else
      var q := Query(TableFor(kind.value), id.value);
      match result
      case Found(row) => LoadStep(PageState(Some(Property(row, kind.value)), false), Some(q), false)
      case _ => LoadStep(PageState(None, false), Some(q), true)
  }

  /** The detail screen's parts. Each slot records what its JSX guard
      renders; see `Display.Slot` for the stray "0" of a zero amount. */
  datatype DetailView = DetailView(
    priceLine: Slot,
    priceText: Option<MoneyText>,
    rentLine: Slot,
    rentText: Option<MoneyText>,
    depositLine: Slot,
    depositText: Option<MoneyText>,
    bedroomsLine: Slot,
    bathroomsLine: Slot,
    parkingLine: Slot,
    areaLine: Slot,
    furnishedBadge: bool,
    rentalInfo: bool,
    amenities: bool,
    contactName: bool,
    contactPhone: bool,
    contactEmail: bool,
    description: string,
    contactRole: string)

  datatype Screen = LoadingScreen | NotFoundScreen | DetailScreen(view: DetailView)

  const NoDescription := "No description available for this property."

  /** The price area, the features grid, the rental block, the amenities,
      the contact block and the action button of a loaded property. */
  function ViewOf(p: Property): (v: DetailView)
    ensures v.priceLine != Hidden ==> p.kind == "sale" && p.row.price.Some?
    ensures v.priceLine == Shown <==> p.kind == "sale" && p.row.price.Some? && p.row.price.value != 0
    ensures v.rentLine != Hidden ==> p.kind == "rental" && p.row.monthlyRent.Some?
    ensures v.rentLine == Shown <==> p.kind == "rental" && p.row.monthlyRent.Some? && p.row.monthlyRent.value != 0
    ensures v.priceLine == Hidden || v.rentLine == Hidden
    ensures p.kind == "sale" ==> v.priceLine == NumberGuard(p.row.price)
    ensures p.kind == "rental" ==> v.rentLine == NumberGuard(p.row.monthlyRent)
    ensures v.rentLine == Shown ==> v.depositLine == NumberGuard(p.row.securityDeposit)
    ensures v.depositLine != Hidden ==> v.rentLine == Shown
    ensures v.depositLine == Shown <==> v.rentLine == Shown && p.row.securityDeposit.Some? && p.row.securityDeposit.value != 0
    ensures v.bedroomsLine == Shown <==> p.row.bedrooms.Some? && p.row.bedrooms.value > 0
    ensures v.rentalInfo <==> p.kind == "rental"
    ensures v.amenities <==> p.row.amenities.Some? && |p.row.amenities.value| > 0
    ensures v.contactRole == "Agent" <==> p.kind == "sale"
    ensures v.contactRole in {"Agent", "Owner"}
    ensures v.priceText.Some? <==> v.priceLine == Shown
    ensures v.priceText.Some? ==> v.priceText.value.Rupees? && v.priceText.value.suffix in {" Crore", " Lakh", ""}
    ensures v.rentText.Some? <==> v.rentLine == Shown
    ensures v.rentText.Some? ==> v.rentText.value.Rupees? && v.rentText.value.suffix == "/month"
    ensures v.depositText.Some? <==> v.depositLine == Shown
    ensures v.depositText.Some? ==> v.depositText.value != NotSpecified
    ensures v.priceText == (if v.priceLine == Shown then Some(FormatPrice(p.row.price.value)) else None)
    ensures v.rentText == (if v.rentLine == Shown then Some(FormatRent(p.row.monthlyRent.value)) else None)
    ensures v.depositText == (if v.depositLine == Shown then Some(FormatDeposit(p.row.securityDeposit)) else None)
    ensures v.bedroomsLine == PositiveGuard(p.row.bedrooms)
    ensures v.bathroomsLine == NumberGuard(p.row.bathrooms)
    ensures v.parkingLine == NumberGuard(p.row.parking)
    ensures v.areaLine == NumberGuard(p.row.area)
    ensures v.furnishedBadge <==> p.kind == "rental" && TextPresent(p.row.furnished)
    ensures v.contactName <==> TextPresent(p.row.contactName)
    ensures v.contactPhone <==> TextPresent(p.row.contactPhone)
    ensures v.contactEmail <==> TextPresent(p.row.contactEmail)
    ensures v.description == OrText(p.row.description, NoDescription)
  {
    var isSale := p.kind == "sale";
    var isRental := p.kind == "rental";
    var price := if isSale then NumberGuard(p.row.price) else Hidden;
    var rent := if isRental then NumberGuard(p.row.monthlyRent) else Hidden;
    var deposit := if rent == Shown then NumberGuard(p.row.securityDeposit) else Hidden;
    DetailView(
      priceLine := price,
      priceText := if price == Shown then Some(FormatPrice(p.row.price.value)) else None,
      rentLine := rent,
      rentText := if rent == Shown then Some(FormatRent(p.row.monthlyRent.value)) else None,
      depositLine := deposit,
      depositText := if deposit == Shown then Some(FormatDeposit(p.row.securityDeposit)) else None,
      bedroomsLine := PositiveGuard(p.row.bedrooms),
      bathroomsLine := NumberGuard(p.row.bathrooms),
      parkingLine := NumberGuard(p.row.parking),
      areaLine := NumberGuard(p.row.area),
      furnishedBadge := isRental && TextPresent(p.row.furnished),
      rentalInfo := isRental,
      amenities := p.row.amenities.Some? && |p.row.amenities.value| > 0,
      contactName := TextPresent(p.row.contactName),
      contactPhone := TextPresent(p.row.contactPhone),
      contactEmail := TextPresent(p.row.contactEmail),
      description := OrText(p.row.description, NoDescription),
      contactRole := if isSale then "Agent" else "Owner")
  }

  /** The screen: the skeleton while loading, "Property not found" once
      loading ended without a property, the details otherwise. */
  function ScreenOf(s: PageState): (sc: Screen)
    ensures sc == LoadingScreen <==> s.loading
    ensures sc == NotFoundScreen <==> !s.loading && s.property == None
    ensures sc.DetailScreen? ==> s.property.Some? && sc.view == ViewOf(s.property.value)
  {
    if s.loading then LoadingScreen
    else if s.property == None then NotFoundScreen
    else DetailScreen(ViewOf(s.property.value))
  }

  /** A failed fetch ends on the "Property not found" screen; a route
      without both segments stays on the loading screen for good. */
  lemma LoadOutcomes(id: Option<string>, kind: Option<string>, result: SingleResult)
    ensures TextPresent(id) && TextPresent(kind) && !result.Found? ==> ScreenOf(Load(id, kind, result).state) == NotFoundScreen
    ensures !(TextPresent(id) && TextPresent(kind)) ==> ScreenOf(Load(id, kind, result).state) == LoadingScreen
    ensures TextPresent(id) && TextPresent(kind) && result.Found? ==>
              ScreenOf(Load(id, kind, result).state).DetailScreen?
  {
  }

  /** A route type other than "sale" or "rental" still reads the rental
      table, but the loaded page shows neither a price nor a rent line,
      no rental block, and "Contact Owner". */
  lemma UnknownKindShowsNoAmount(id: string, kind: string, row: DetailRow)
    requires id != "" && kind != "" && kind != "sale" && kind != "rental"
    ensures Load(Some(id), Some(kind), Found(row)).query == Some(Query(RentalProperties, id))
    ensures var v := ViewOf(Property(row, kind));
            v.priceLine == Hidden && v.rentLine == Hidden && !v.rentalInfo && v.contactRole == "Owner"
  {
  }

  /** A property with zero bedrooms prints a bare "0" in the features grid
      instead of omitting the line, because the guard short-circuits on the
      number. */
  lemma ZeroBedroomsPrintsZero(p: Property)
    requires p.row.bedrooms == Some(0)
    ensures ViewOf(p).bedroomsLine == StrayZero
  {
  }

  /** The detail row of a sale listing as My Properties holds it: the same
      `sale_properties` row, with no rental columns. */
  function SaleRow(p: MyProperties.SaleProperty): DetailRow {
    DetailRow(p.id, p.title, p.description, Some(p.price), None, None, p.propertyType,
              p.bedrooms, p.bathrooms, None, p.area, None, p.location, None, None, None,
              None, None, None, None, p.images, p.createdAt)
  }

  /** The detail row of a rental listing as My Properties holds it. */
  function RentalRow(p: MyProperties.RentalProperty): DetailRow {
    DetailRow(p.id, p.title, p.description, None, Some(p.monthlyRent), None, p.propertyType,
              p.bedrooms, p.bathrooms, p.parking, p.area, p.furnished, p.location, None, None, None,
              None, None, None, None, p.images, p.createdAt)
  }

  /** A sale card on My Properties and the detail page of the same listing
      agree: a non-zero price prints the same text, and the area shows on
      both or on neither. */
  lemma SaleCardAgreesWithDetails(p: MyProperties.SaleProperty)
    ensures var c := MyProperties.SaleCardOf(p);
            var v := ViewOf(Property(SaleRow(p), "sale"));
            (p.price != 0 ==> v.priceText == Some(c.price)) && c.areaShown == v.areaLine
  {
  }

  /** A rental card on My Properties and the detail page of the same
      listing agree: a non-zero rent prints the same text, the card says
      "Office" exactly when the page has no bedrooms line, and the area
      and the furnished badge show on both or on neither. */
  lemma RentalCardAgreesWithDetails(p: MyProperties.RentalProperty)
    ensures var c := MyProperties.RentalCardOf(p);
            var v := ViewOf(Property(RentalRow(p), "rental"));
            (p.monthlyRent != 0 ==> v.rentText == Some(c.rent))
            && (c.beds == Office <==> v.bedroomsLine != Shown)
            && c.areaShown == v.areaLine
            && c.furnishedShown == v.furnishedBadge
  {
  }
}
