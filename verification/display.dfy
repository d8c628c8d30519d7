/** Rendering decisions shared by the listing pages: what the JSX guards
    `{value && <Element/>}` and the fallbacks `value || 0` produce for the
    nullable columns of a property row. */
module Display {
  import opened Wrappers

  /** The outcome of `{v && <Element/>}` for a nullable number `v`. React
      prints nothing for `null`/`undefined` and `false`, but it prints a
      falsy NUMBER, so a zero renders the bare text "0". */
  datatype Slot = Hidden | StrayZero | Shown

  /** `{v && <Element/>}`. */
  function NumberGuard(v: Option<int>): (s: Slot)
    ensures s == Shown <==> v.Some? && v.value != 0
    ensures s == StrayZero <==> v == Some(0)
  {
    match v
    case None => Hidden
    case Some(n) => if n == 0 then StrayZero else Shown
  }

  /** `{v && v > 0 && <Element/>}`: a negative value yields `false`, which
      renders nothing, while zero still short-circuits to the number 0. */
  function PositiveGuard(v: Option<int>): (s: Slot)
    ensures s == Shown <==> v.Some? && v.value > 0
    ensures s == StrayZero <==> v == Some(0)
    ensures s == Hidden <==> v == None || v.value < 0
  {
    match v
    case None => Hidden
    case Some(n) => if n == 0 then StrayZero else if n > 0 then Shown else Hidden
  }

  /** A nullable string is truthy when present and non-empty; React renders
      nothing for an empty string, so a falsy string never leaves a trace. */
  predicate TextPresent(v: Option<string>)
    ensures TextPresent(v) <==> v != None && v != Some("")
  {
    v.Some? && v.value != ""
  }

  /** `v || 0` for a nullable number. */
  function OrZero(v: Option<int>): (n: int)
    ensures n == 0 <==> v == None || v == Some(0)
    ensures v.Some? ==> n == v.value
  {
    v.GetOr(0)
  }

  /** `v || fallback` for a nullable string. */
  function OrText(v: Option<string>, fallback: string): (s: string)
    ensures TextPresent(v) ==> s == v.value
    ensures !TextPresent(v) ==> s == fallback
  {
    if TextPresent(v) then v.value else fallback
  }

  /** `s || fallback` for a string, as the error toasts write their
      description: an empty string is falsy. */
  function OrFallback(s: string, fallback: string): (r: string)
    ensures s != "" ==> r == s
    ensures s == "" ==> r == fallback
  {
    if s == "" then fallback else s
  }

  /** The bedroom cell of a rental card. */
  datatype BedsLabel = Beds(count: int) | Office

  /** `bedrooms && bedrooms > 0 ? "<n> Beds" : "Office"`. */
  function RentalBeds(bedrooms: Option<int>): (l: BedsLabel)
    ensures l.Beds? <==> bedrooms.Some? && bedrooms.value > 0
    ensures l.Beds? ==> l.count == bedrooms.value
  {
    if bedrooms.Some? && bedrooms.value > 0 then Beds(bedrooms.value) else Office
  }
}
