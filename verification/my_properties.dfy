/** The owner's listing page: two lists (sale and rental listings of the
    signed-in user), a loading flag, the fetch that fills them, the two
    delete actions, and the card rendering rules.

    Every remote call is an input: the page receives the outcome the
    remote store gave and the model computes the next page state. Toasts,
    console output and navigation are returned as tags. */
module MyProperties {
  import opened Wrappers
  import opened Subsequences
  import opened Session
  import opened Display
  import opened Pricing

  datatype SaleProperty = SaleProperty(
    id: string,
    title: string,
    description: Option<string>,
    price: int,
    propertyType: string,
    bedrooms: Option<int>,
    bathrooms: Option<int>,
    area: Option<int>,
    location: Option<string>,
    images: Option<seq<string>>,
    createdAt: string)

  datatype RentalProperty = RentalProperty(
    id: string,
    title: string,
    description: Option<string>,
    monthlyRent: int,
    propertyType: string,
    bedrooms: Option<int>,
    bathrooms: Option<int>,
    parking: Option<int>,
    area: Option<int>,
    furnished: Option<string>,
    location: Option<string>,
    images: Option<seq<string>>,
    createdAt: string)

  datatype PageState = PageState(sale: seq<SaleProperty>, rental: seq<RentalProperty>, loading: bool)

  const Initial := PageState([], [], true)

  /** What a `select` on one table gave back: rows (possibly `null`), an
      error value, or a thrown exception. */
  datatype QueryResult<T> = Rows(data: Option<seq<T>>) | QueryError | QueryThrew

  /** What a `delete` gave back; a thrown exception and a returned error
      take the same path. */
  datatype DeleteResult = Deleted | DeleteFailed

  datatype Toast = Quiet | SuccessToast | ErrorToast

  /** The effect of the page's mount effect for the current user. */
  datatype Mount = RedirectToAuth | FetchFor(userId: string)

  function OnMount(user: Option<User>): (m: Mount)
    ensures m == RedirectToAuth <==> user == None
    ensures m.FetchFor? ==> m.userId == user.value.id
  {
    match user
    case None => RedirectToAuth
    case Some(u) => FetchFor(u.id)
  }

  /** The state after `fetchProperties`, whether the rental query was
      issued, and the toast shown. */
  datatype FetchStep = FetchStep(state: PageState, rentalQueried: bool, toast: Toast)

  /** Applies one table's result: rows replace the list (`data || []`), an
      error leaves it as it was. */
  function ApplyRows<T>(current: seq<T>, result: QueryResult<T>): (r: seq<T>)
    ensures result.Rows? && result.data.Some? ==> r == result.data.value
    ensures result.Rows? && result.data.None? ==> r == []
    ensures !result.Rows? ==> r == current
  {
    match result
    case Rows(data) => data.GetOr([])
    case _ => current
  }

  /** `fetchProperties`. Both queries sit in one `try`, so an exception
      thrown by the sale query skips the rental query; `finally` clears the
      loading flag on every path. */
  function Fetch(s: PageState, saleResult: QueryResult<SaleProperty>, rentalResult: QueryResult<RentalProperty>): (out: FetchStep)
    ensures !out.state.loading
    ensures saleResult.QueryError? ==> out.state.sale == s.sale
    ensures saleResult.QueryThrew? ==> out.state.sale == s.sale && out.state.rental == s.rental && !out.rentalQueried
    ensures saleResult.Rows? && saleResult.data.Some? ==> out.state.sale == saleResult.data.value
    ensures saleResult.Rows? && saleResult.data.None? ==> out.state.sale == []
    ensures !saleResult.QueryThrew? ==> out.rentalQueried
    ensures out.rentalQueried && rentalResult.QueryError? ==> out.state.rental == s.rental
    ensures out.rentalQueried && rentalResult.Rows? ==> out.state.rental == rentalResult.data.GetOr([])
    ensures out.rentalQueried && rentalResult.QueryThrew? ==> out.state.rental == s.rental
    ensures out.toast == ErrorToast <==> saleResult.QueryThrew? || (out.rentalQueried && rentalResult.QueryThrew?)
    ensures out.toast != SuccessToast
  {
    if saleResult.QueryThrew? then
      FetchStep(s.(loading := false), false, ErrorToast)
    else
      var sale := ApplyRows(s.sale, saleResult);
      var rental := ApplyRows(s.rental, rentalResult);
      FetchStep(PageState(sale, rental, false), true, if rentalResult.QueryThrew? then ErrorToast else Quiet)
  }

  /** Each table's fetch result updates only its own list: the sale list
      does not depend on the rental result, and once the rental query is
      issued the rental list does not depend on the sale result. */
  lemma FetchTablesIndependent(
    s: PageState,
    saleA: QueryResult<SaleProperty>, saleB: QueryResult<SaleProperty>,
    rentalA: QueryResult<RentalProperty>, rentalB: QueryResult<RentalProperty>)
    ensures Fetch(s, saleA, rentalA).state.sale == Fetch(s, saleA, rentalB).state.sale
    ensures !saleA.QueryThrew? && !saleB.QueryThrew? ==>
              Fetch(s, saleA, rentalA).state.rental == Fetch(s, saleB, rentalA).state.rental
  {
  }

  /** The records left after removing every record whose id is `id`. */
  function WithoutSale(xs: seq<SaleProperty>, id: string): (r: seq<SaleProperty>)
    ensures IsSubsequence(r, xs)
    ensures forall p :: multiset(r)[p] == if p.id == id then 0 else multiset(xs)[p]
  {
    Filter(xs, (p: SaleProperty) => p.id != id)
  }

  function WithoutRental(xs: seq<RentalProperty>, id: string): (r: seq<RentalProperty>)
    ensures IsSubsequence(r, xs)
    ensures forall p :: multiset(r)[p] == if p.id == id then 0 else multiset(xs)[p]
  {
    Filter(xs, (p: RentalProperty) => p.id != id)
  }

  datatype DeleteStep = DeleteStep(state: PageState, toast: Toast)

  /** `deleteSaleProperty`: the local list changes only when the remote
      delete succeeded, and the rental list is never touched. No ownership
      check is made locally. */
  function DeleteSale(s: PageState, id: string, result: DeleteResult): (out: DeleteStep)
    ensures result == DeleteFailed ==> out.state == s && out.toast == ErrorToast
    ensures result == Deleted ==> out.toast == SuccessToast
    ensures out.state.rental == s.rental && out.state.loading == s.loading
    ensures IsSubsequence(out.state.sale, s.sale)
    ensures result == Deleted ==>
              forall p :: multiset(out.state.sale)[p] == if p.id == id then 0 else multiset(s.sale)[p]
  {
    match result
    case Deleted => DeleteStep(s.(sale := WithoutSale(s.sale, id)), SuccessToast)
    case DeleteFailed =>
      SubsequenceOfSelf(s.sale);
      DeleteStep(s, ErrorToast)
  }

  /** `deleteRentalProperty`, symmetric to `DeleteSale`. */
  function DeleteRental(s: PageState, id: string, result: DeleteResult): (out: DeleteStep)
    ensures result == DeleteFailed ==> out.state == s && out.toast == ErrorToast
    ensures result == Deleted ==> out.toast == SuccessToast
    ensures out.state.sale == s.sale && out.state.loading == s.loading
    ensures IsSubsequence(out.state.rental, s.rental)
    ensures result == Deleted ==>
              forall p :: multiset(out.state.rental)[p] == if p.id == id then 0 else multiset(s.rental)[p]
  {
    match result
    case Deleted => DeleteStep(s.(rental := WithoutRental(s.rental, id)), SuccessToast)
    case DeleteFailed =>
      SubsequenceOfSelf(s.rental);
      DeleteStep(s, ErrorToast)
  }

  /** After a successful delete no record with that id remains, and
      deleting the same id again changes nothing. */
  lemma DeleteSaleIdempotent(s: PageState, id: string)
    ensures forall p :: p in DeleteSale(s, id, Deleted).state.sale ==> p.id != id
    ensures DeleteSale(DeleteSale(s, id, Deleted).state, id, Deleted).state == DeleteSale(s, id, Deleted).state
  {
    var once := WithoutSale(s.sale, id);
    FilterKeepsAll(once, (p: SaleProperty) => p.id != id);
  }

  /** A tab's body. */
  datatype Tab = Skeleton | NothingListed | Grid(cards: int)

  function TabBody<T>(loading: bool, xs: seq<T>): (t: Tab)
    ensures t == Skeleton <==> loading
    ensures t == NothingListed <==> !loading && xs == []
    ensures t.Grid? ==> t.cards == |xs| > 0
  {
    if loading then Skeleton else if |xs| == 0 then NothingListed else Grid(|xs|)
  }

  /** The page: nothing at all without a user; otherwise the two tab
      titles' counts and bodies. */
  datatype View = View(saleCount: int, rentalCount: int, saleTab: Tab, rentalTab: Tab)

  function Render(user: Option<User>, s: PageState): (v: Option<View>)
    ensures v == None <==> user == None
    ensures v.Some? ==> v.value.saleCount == |s.sale| && v.value.rentalCount == |s.rental|
    ensures v.Some? ==> v.value.saleTab == TabBody(s.loading, s.sale) && v.value.rentalTab == TabBody(s.loading, s.rental)
  {
    if user == None then None
    else Some(View(|s.sale|, |s.rental|, TabBody(s.loading, s.sale), TabBody(s.loading, s.rental)))
  }

  /** What a sale card prints. */
  datatype SaleCard = SaleCard(price: MoneyText, beds: int, baths: int, areaShown: Slot, locationShown: bool)

  function SaleCardOf(p: SaleProperty): (c: SaleCard)
    ensures c.price == FormatPrice(p.price)
    ensures c.beds == 0 <==> p.bedrooms == None || p.bedrooms == Some(0)
    ensures c.beds != 0 ==> Some(c.beds) == p.bedrooms
    ensures c.baths == 0 <==> p.bathrooms == None || p.bathrooms == Some(0)
    ensures c.locationShown <==> TextPresent(p.location)
    ensures c.baths == OrZero(p.bathrooms) && c.areaShown == NumberGuard(p.area)
  {
    SaleCard(FormatPrice(p.price), OrZero(p.bedrooms), OrZero(p.bathrooms), NumberGuard(p.area), TextPresent(p.location))
  }

  /** What a rental card prints. */
  datatype RentalCard = RentalCard(rent: MoneyText, beds: BedsLabel, baths: int, parking: int, furnishedShown: bool, areaShown: Slot)

  function RentalCardOf(p: RentalProperty): (c: RentalCard)
    ensures c.rent == FormatRent(p.monthlyRent)
    ensures c.beds == Office <==> p.bedrooms == None || p.bedrooms.value <= 0
    ensures c.beds.Beds? ==> Some(c.beds.count) == p.bedrooms
    ensures c.parking == 0 <==> p.parking == None || p.parking == Some(0)
    ensures c.furnishedShown <==> TextPresent(p.furnished)
    ensures c.baths == OrZero(p.bathrooms) && c.parking == OrZero(p.parking) && c.areaShown == NumberGuard(p.area)
  {
    RentalCard(FormatRent(p.monthlyRent), RentalBeds(p.bedrooms), OrZero(p.bathrooms), OrZero(p.parking),
               TextPresent(p.furnished), NumberGuard(p.area))
  }
}
