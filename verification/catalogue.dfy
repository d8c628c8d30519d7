/** The Buy and Rent catalogue pages. Both hold an in-memory list of cards
    and derive the visible list from three text inputs with the same
    predicate: a case-insensitive search over title or location, an exact
    property-type match, and a case-insensitive location match, ANDed.
    The price-range selector is state that nothing reads, and the sort
    selector is an uncontrolled widget whose value is never read either. */
module Catalogue {
  import opened Wrappers
  import opened Subsequences
  import opened Text
  import opened Display

  /** The rent-only facts a Rent card carries. */
  datatype RentTerms = RentTerms(furnished: string, deposit: string)

  /** One catalogue card. Prices and areas are display strings on these
      pages; `rentTerms` is present on Rent cards only. */
  datatype Card = Card(
    id: int,
    title: string,
    price: string,
    location: string,
    bedrooms: int,
    bathrooms: int,
    parking: int,
    area: string,
    image: string,
    propertyType: string,
    rentTerms: Option<RentTerms>)

  /** The page's inputs. `priceRange` and `sortBy` can be chosen by the user
      but take no part in filtering. */
  datatype Criteria = Criteria(
    searchQuery: string,
    priceRange: string,
    propertyType: string,
    location: string,
    sortBy: string)

  /** Search: the lower-cased title OR the lower-cased location contains the
      lower-cased query. An empty query therefore matches every card. */
  predicate MatchesSearch(query: string, card: Card)
    ensures query == "" ==> MatchesSearch(query, card)
  {
    ContainsIgnoringCase(card.title, query) || ContainsIgnoringCase(card.location, query)
  }

  /** Type: unset, or exactly (case-sensitively) the card's type. */
  predicate MatchesType(propertyType: string, card: Card)
    ensures propertyType == "" ==> MatchesType(propertyType, card)
    ensures propertyType != "" && MatchesType(propertyType, card) ==> card.propertyType == propertyType
  {
    propertyType == "" || card.propertyType == propertyType
  }

  /** Location: unset, or a case-insensitive substring of the location. */
  predicate MatchesLocation(location: string, card: Card)
    ensures location == "" ==> MatchesLocation(location, card)
    ensures MatchesLocation(location, card) ==> MatchesSearch(location, card)
  {
    location == "" || ContainsIgnoringCase(card.location, location)
  }

  predicate Shows(c: Criteria, card: Card)
    ensures c.searchQuery == "" && c.propertyType == "" && c.location == "" ==> Shows(c, card)
  {
    MatchesSearch(c.searchQuery, card) && MatchesType(c.propertyType, card) && MatchesLocation(c.location, card)
  }

  /** `filteredProperties`: the cards every active predicate accepts, in
      catalogue order, each as often as it occurs in the catalogue. */
  function Visible(cards: seq<Card>, c: Criteria): (r: seq<Card>)
    ensures IsSubsequence(r, cards) && |r| <= |cards|
    ensures forall card :: card in r <==> card in cards && Shows(c, card)
    ensures forall card :: multiset(r)[card] == if Shows(c, card) then multiset(cards)[card] else 0
  {
    Filter(cards, card => Shows(c, card))
  }

  /** What the results section shows: a heading with a count, the grid of
      cards, and the "No properties found" block. */
  datatype Results = Results(count: int, grid: seq<Card>, emptyNotice: bool)

  function ResultsFor(cards: seq<Card>, c: Criteria): (v: Results)
    ensures v.grid == Visible(cards, c)
    ensures v.count == |v.grid| <= |cards|
    ensures v.emptyNotice <==> forall card :: card in cards ==> !Shows(c, card)
  {
    var shown := Visible(cards, c);
    assert shown != [] ==> shown[0] in shown;
    Results(|shown|, shown, |shown| == 0)
  }

  /** Neither the price range nor the sort choice changes the result. */
  lemma VisibleIgnoresPriceAndSort(cards: seq<Card>, c: Criteria, priceRange: string, sortBy: string)
    ensures Visible(cards, c.(priceRange := priceRange, sortBy := sortBy)) == Visible(cards, c)
  {
    var c' := c.(priceRange := priceRange, sortBy := sortBy);
    FilterCongruent(cards, card => Shows(c', card), card => Shows(c, card));
  }

  /** With search, type and location all empty, every card is shown, in
      order, whatever the price range and sort choice. */
  lemma VisibleUnfiltered(cards: seq<Card>, c: Criteria)
    requires c.searchQuery == "" && c.propertyType == "" && c.location == ""
    ensures Visible(cards, c) == cards
  {
    forall card | card in cards
      ensures Shows(c, card)
    {
      IncludesEmpty(Lower(card.title));
    }
    FilterKeepsAll(cards, card => Shows(c, card));
  }

  /** Typing more characters into the search box never brings a card back:
      the new result is a subsequence of the old one. */
  lemma SearchExtensionNarrows(cards: seq<Card>, c: Criteria, more: string)
    ensures IsSubsequence(Visible(cards, c.(searchQuery := c.searchQuery + more)), Visible(cards, c))
  {
    var longer := c.(searchQuery := c.searchQuery + more);
    forall card | card in cards && Shows(longer, card)
      ensures Shows(c, card)
    {
      if ContainsIgnoringCase(card.title, c.searchQuery + more) {
        ContainsIgnoringCaseDropSuffix(card.title, c.searchQuery, more);
      } else {
        ContainsIgnoringCaseDropSuffix(card.location, c.searchQuery, more);
      }
    }
    FilterMonotone(cards, card => Shows(c, card), card => Shows(longer, card));
  }

  /** Setting a location filter yields a subsequence of the result without
      one. */
  lemma LocationFilterNarrows(cards: seq<Card>, c: Criteria, location: string)
    requires c.location == ""
    ensures IsSubsequence(Visible(cards, c.(location := location)), Visible(cards, c))
  {
    var located := c.(location := location);
    FilterMonotone(cards, card => Shows(c, card), card => Shows(located, card));
  }

  /** The type filter compares case-sensitively: "apartment" never selects
      a card typed "Apartment". */
  lemma TypeFilterIsCaseSensitive(cards: seq<Card>, c: Criteria)
    requires c.propertyType == "apartment"
    ensures forall card :: card in Visible(cards, c) ==> card.propertyType != "Apartment"
  {
  }

  /** The location filter reads the location only: a card whose location
      does not contain it is hidden even when its title does. */
  lemma LocationFilterIgnoresTitle(c: Criteria, card: Card)
    requires c.location != "" && !ContainsIgnoringCase(card.location, c.location)
    ensures !Shows(c, card)
    ensures !Shows(c, card.(title := c.location))
  {
  }

  /** The bedroom cell of a card: Buy cards always print "<n> Beds"; Rent
      cards print "Office" unless the count is positive. */
  function CardBeds(card: Card): (l: BedsLabel)
    ensures card.rentTerms.None? ==> l == Beds(card.bedrooms)
    ensures card.rentTerms.Some? ==> (l == Office <==> card.bedrooms <= 0)
    ensures l.Beds? ==> l.count == card.bedrooms
  {
    if card.rentTerms.Some? then RentalBeds(Some(card.bedrooms)) else Beds(card.bedrooms)
  }

  /** The same card prints the same bedroom cell on both pages exactly when
      its count is positive; otherwise Buy prints the count and Rent prints
      "Office". */
  lemma CardBedsPagesAgree(card: Card, terms: RentTerms)
    ensures CardBeds(card.(rentTerms := Some(terms))) == CardBeds(card.(rentTerms := None)) <==> card.bedrooms > 0
  {
  }
}
