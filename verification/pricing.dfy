/** The amount formatters of the owner's listing page and the property
    detail page (the two pages carry identical copies).

    The digits themselves come from `toFixed(1)` and `toLocaleString()`,
    which depend on floating point and on the browser locale; they are kept
    abstract as a `Figure` that says WHICH number is printed and HOW. What
    is modelled exactly is the choice of shape: the rupee sign, the unit
    word and the suffix. */
module Pricing {
  import opened Wrappers

  const Crore: int := 10_000_000
  const Lakh: int := 100_000

  /** The printed number: `(amount / divisor).toFixed(1)` or
      `amount.toLocaleString()`. */
  datatype Figure = OneDecimal(amount: int, divisor: int) | Grouped(amount: int)

  /** A formatted amount: the literal "Not specified", or "₹" followed by a
      figure and a suffix. */
  datatype MoneyText = NotSpecified | Rupees(figure: Figure, suffix: string)

  datatype Tier = CroreTier | LakhTier | PlainTier

  /** The integer thresholds of `formatPrice`. */
  function PriceTier(price: int): Tier {
    if price >= Crore then CroreTier else if price >= Lakh then LakhTier else PlainTier
  }

  function Rank(t: Tier): int {
    match t
    case PlainTier => 0
    case LakhTier => 1
    case CroreTier => 2
  }

  /** `formatPrice`. */
  function FormatPrice(price: int): (t: MoneyText)
    ensures t.Rupees?
    ensures t.suffix == " Crore" <==> PriceTier(price) == CroreTier
    ensures t.suffix == " Lakh" <==> PriceTier(price) == LakhTier
    ensures t.suffix == "" <==> PriceTier(price) == PlainTier
    ensures t.figure.OneDecimal? <==> PriceTier(price) != PlainTier
  {
    match PriceTier(price)
    case CroreTier => Rupees(OneDecimal(price, Crore), " Crore")
    case LakhTier => Rupees(OneDecimal(price, Lakh), " Lakh")
    case PlainTier => Rupees(Grouped(price), "")
  }

  /** `formatRent`: always the grouped amount followed by "/month"; rent is
      never abbreviated to lakh or crore. */
  function FormatRent(rent: int): (t: MoneyText)
    ensures t.Rupees? && t.suffix == "/month"
    ensures !t.figure.OneDecimal?
  {
    Rupees(Grouped(rent), "/month")
  }

  /** `formatDeposit`: a null or zero deposit is "Not specified". */
  function FormatDeposit(deposit: Option<int>): (t: MoneyText)
    ensures t == NotSpecified <==> deposit == None || deposit == Some(0)
    ensures t.Rupees? ==> t.suffix == "" && !t.figure.OneDecimal?
  {
    match deposit
    case None => NotSpecified
    case Some(d) => if d == 0 then NotSpecified else Rupees(Grouped(d), "")
  }

  /** A printed figure scaled by the unit word that follows it. */
  function Scaled(figure: real, suffix: string): real {
    if suffix == " Crore" then figure * 10_000_000.0
    else if suffix == " Lakh" then figure * 100_000.0
    else figure
  }

  /** The amount a reader recovers from a formatted text, before the
      rounding of the printed figure; `None` for "Not specified". */
  function ReadBack(t: MoneyText): Option<real> {
    match t
    case NotSpecified => None
    case Rupees(Grouped(a), suffix) => Some(Scaled(a as real, suffix))
    case Rupees(OneDecimal(a, d), suffix) =>
      if d == 0 then None else Some(Scaled(a as real / d as real, suffix))
  }

  /** The tiers partition the integers at 1,00,000 and 1,00,00,000. */
  lemma PriceTierBands(price: int)
    ensures PriceTier(price) == CroreTier <==> price >= 10_000_000
    ensures PriceTier(price) == LakhTier <==> 100_000 <= price < 10_000_000
    ensures PriceTier(price) == PlainTier <==> price < 100_000
  {
  }

  /** A larger price never gets a smaller unit. */
  lemma PriceTierMonotone(p: int, q: int)
    requires p <= q
    ensures Rank(PriceTier(p)) <= Rank(PriceTier(q))
  {
  }

  /** Reading a formatted price back, unit word included, gives the price:
      the figure and the unit word always agree. */
  lemma FormatPriceReadsBack(price: int)
    ensures ReadBack(FormatPrice(price)) == Some(price as real)
  {
  }

  /** Before rounding, an abbreviated figure is at least 1 and a lakh figure
      is below 100. Rounding to one decimal can still print "100.0 Lakh" for
      prices from 99,95,000 up to 99,99,999. */
  lemma FormatPriceFigureRange(price: int)
    ensures FormatPrice(price).figure.OneDecimal? ==> FormatPrice(price).figure.divisor <= price
    ensures FormatPrice(price).suffix == " Lakh" ==> price < 100 * FormatPrice(price).figure.divisor
  {
  }

  /** Rent and deposit text read back as the exact amount. */
  lemma RentAndDepositReadBack(rent: int, deposit: int)
    requires deposit != 0
    ensures ReadBack(FormatRent(rent)) == Some(rent as real)
    ensures ReadBack(FormatDeposit(Some(deposit))) == Some(deposit as real)
  {
    assert "/month"[0] != " Crore"[0] && "/month"[0] != " Lakh"[0];
  }
}
