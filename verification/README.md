# The Silver Estates listing pages, modelled in Dafny

This project models the state logic of a small real-estate web application.
The application is written in React and TypeScript, with a hosted Postgres
back end. The model covers these pages:

- the **Buy** and **Rent** catalogue pages, with their search, type and
  location filters;
- **My Properties**, where an owner sees and deletes their own sale and
  rental listings;
- the **property detail** page, which reads one row from the sale or rental
  table and renders it;
- the **rental listing form**, covering field edits, amenity checkboxes,
  picked files and the submit pipeline;
- the **sign-in / sign-up** page and the header's **account button**.

Each page's state is an immutable datatype, and each handler is a pure
function from the old state and the remote outcome to the new state.
Remote calls (queries, inserts, deletes, sign-in, sign-up) are not
performed. The model receives what the remote store answered, as a value
of a small result datatype, and returns what the page does next. Toasts
and navigation are returned as tags.

Modules:

| module | models |
|---|---|
| `Wrappers` | `Option` |
| `Subsequences` | `Array.prototype.filter` as `Filter`, with its subsequence / multiset contract |
| `Text` | ASCII `toLowerCase`, `String.prototype.includes`, `trim`, `replace(/,/g, '')` |
| `Session` | the signed-in user |
| `Display` | JSX guards `{v && <X/>}`, `v \|\| 0`, `v \|\| fallback` on nullable columns |
| `Catalogue` | Buy.tsx / Rent.tsx filtering and result section |
| `Pricing` | `formatPrice`, `formatRent`, `formatDeposit` |
| `MyProperties` | MyProperties.tsx |
| `PropertyDetails` | PropertyDetails.tsx |
| `RentListing` | RentListProperty.tsx |
| `AuthButton` | AuthButton.tsx |
| `AuthPage` | Auth.tsx |

Facts about the code that are easy to miss:

- `formatRent` never abbreviates rent to lakh or crore (`Pricing.FormatRent`).
- Neither catalogue page reads the price-range state or the sort selector
  (`Catalogue.VisibleIgnoresPriceAndSort`).
- The rental form accepts a zero or negative rent, as long as it parses
  (`RentListing.NonPositiveRentAccepted`).
- A missing required field gives one generic message that names no field
  (`MissingRequired`).
- `formatDeposit` prints "Not specified" for 0 as well as for null
  (`Pricing.FormatDeposit`).

## Model

| member | source | states |
|---|---|---|
| Subsequences.Filter | src/pages/MyProperties.tsx:121 | the kept elements form a subsequence of the input; each element keeps its multiplicity if the predicate accepts it and has none otherwise; membership is exactly "in the input and accepted" |
| Subsequences.FilterMonotone | src/pages/Buy.tsx:68-75 | a predicate that accepts fewer elements keeps a subsequence of what a weaker predicate keeps |
| Text.LowerChar | src/pages/Buy.tsx:69-72 | `toLowerCase` on one ASCII character never yields an upper-case letter and leaves every non-letter alone |
| Text.Lower | src/pages/Buy.tsx:69-72 | lower-casing keeps the length and maps each character by `LowerChar` |
| Text.LowerIdempotent | src/pages/Buy.tsx:69-72 | lower-casing twice equals lower-casing once |
| Text.IncludesIffOccurs | src/pages/Buy.tsx:69-72 | `includes` holds exactly when the needle occurs at some index of the haystack |
| Text.IncludesDropSuffix | src/pages/Buy.tsx:69-70 | a haystack that includes a longer needle includes every prefix of it |
| Text.Includes | src/pages/Buy.tsx:69-72 | `includes`: a prefix of the haystack is found, and a found needle is no longer than the haystack |
| Text.ContainsIgnoringCase | src/pages/Buy.tsx:69-72 | `x.toLowerCase().includes(q.toLowerCase())`: an empty query is contained, a contained query is no longer than the text, and a prefix is found whatever the case of either side |
| Text.ContainsIgnoringCaseDropSuffix | src/pages/Rent.tsx:77-78 | if a text contains a query ignoring case, it contains every prefix of that query ignoring case |
| Text.TrimStart | src/pages/Auth.tsx:44 | the result is a suffix of the input that starts with a non-trimmable character, and everything dropped is trimmable |
| Text.TrimEnd | src/pages/Auth.tsx:44 | the result is a prefix of the input that ends with a non-trimmable character, and everything dropped is trimmable |
| Text.Trim | src/pages/Auth.tsx:44 | `trim()` is empty exactly when every character is ECMAScript white space or a line terminator; otherwise it starts and ends with another character |
| Text.TrimSlice | src/pages/Auth.tsx:44 | the trimmed text occurs in the input at the end of the leading run, with only trimmable characters before and after it |
| Text.StripCommas | src/pages/RentListProperty.tsx:95-96 | the result has no comma; it is a subsequence of the input; every other character keeps its count |
| Text.StripCommasIdempotent | src/pages/RentListProperty.tsx:95 | stripping commas twice equals stripping once |
| Text.StripCommasKeepsPrefix | src/pages/RentListProperty.tsx:95 | a comma-free prefix survives stripping unchanged |
| Display.NumberGuard | src/pages/PropertyDetails.tsx:279-291 | the element renders exactly for a present non-zero number; a present zero prints a stray "0" |
| Display.PositiveGuard | src/pages/PropertyDetails.tsx:273 | the element renders exactly for a positive count; zero prints "0"; null and negatives print nothing |
| Display.TextPresent | src/pages/PropertyDetails.tsx:234 | a nullable string is truthy exactly when it is neither null nor the empty string |
| Display.OrZero | src/pages/MyProperties.tsx:268-272 | `v \|\| 0` is 0 exactly for null or 0 and the value otherwise |
| Display.OrFallback | src/pages/RentListProperty.tsx:174 | `message \|\| fallback`: a non-empty message is kept, an empty one gives the fallback |
| Display.OrText | src/pages/PropertyDetails.tsx:220 | a present non-empty string is shown; otherwise the fallback is |
| Display.RentalBeds | src/pages/MyProperties.tsx:380-390 | "<n> Beds" exactly for a positive count, carrying that count; "Office" otherwise |
| Catalogue.MatchesSearch | src/pages/Buy.tsx:69-70 | an empty query matches every card |
| Catalogue.MatchesType | src/pages/Buy.tsx:71 | an empty type matches every card; a set type matches only that exact type |
| Catalogue.MatchesLocation | src/pages/Rent.tsx:80 | an empty location matches every card; a card passing the location filter also passes a search for the same text |
| Catalogue.Shows | src/pages/Rent.tsx:76-83 | with all three text filters empty every card passes |
| Catalogue.Visible | src/pages/Buy.tsx:68-75 | the visible cards are a subsequence of the catalogue; a card is visible exactly when the search, type and location tests all accept it; its multiplicity is kept |
| Catalogue.ResultsFor | src/pages/Buy.tsx:160 | the count is the number of visible cards, at most the catalogue size; the empty notice shows exactly when no card passes |
| Catalogue.VisibleIgnoresPriceAndSort | src/pages/Buy.tsx:118-127 | changing the price range or the sort choice never changes the visible list |
| Catalogue.VisibleUnfiltered | src/pages/Rent.tsx:76-83 | with all three text filters empty, every card is shown in catalogue order |
| Catalogue.SearchExtensionNarrows | src/pages/Rent.tsx:77-78 | extending the search text yields a subsequence of the previous result |
| Catalogue.LocationFilterNarrows | src/pages/Buy.tsx:72 | setting a location filter yields a subsequence of the result without it |
| Catalogue.TypeFilterIsCaseSensitive | src/pages/Buy.tsx:71 | the type filter compares exactly, so "apartment" never shows an "Apartment" card |
| Catalogue.LocationFilterIgnoresTitle | src/pages/Rent.tsx:80 | a location filter the card's location does not contain hides the card, even when its title matches |
| Catalogue.CardBeds | src/pages/Rent.tsx:251-261 | Buy cards always print the count; Rent cards print "Office" exactly when the count is not positive; a printed count is the row's own bedroom count |
| Catalogue.CardBedsPagesAgree | src/pages/Rent.tsx:251-261 | a card prints the same bedroom cell on Buy and on Rent exactly when its count is positive |
| Pricing.FormatPrice | src/pages/MyProperties.tsx:162-170 | the suffix is " Crore", " Lakh" or none, exactly according to the price band; the one-decimal figure is used exactly in the crore and lakh bands, and the plain band prints the grouped amount |
| Pricing.FormatRent | src/pages/MyProperties.tsx:172-174 | rent is always the grouped amount with "/month" and is never abbreviated |
| Pricing.FormatDeposit | src/pages/PropertyDetails.tsx:98-101 | "Not specified" exactly for a null or zero deposit; otherwise the grouped amount with no suffix |
| Pricing.PriceTierBands | src/pages/PropertyDetails.tsx:84-92 | the bands are `>= 1,00,00,000`, `[1,00,000, 1,00,00,000)` and below |
| Pricing.PriceTierMonotone | src/pages/PropertyDetails.tsx:84-92 | a larger price never gets a smaller unit |
| Pricing.FormatPriceReadsBack | src/pages/MyProperties.tsx:162-170 | the printed figure times the unit word gives back the price, before rounding |
| Pricing.FormatPriceFigureRange | src/pages/MyProperties.tsx:163-166 | before rounding, an abbreviated figure is at least 1 and a lakh figure is below 100 |
| Pricing.RentAndDepositReadBack | src/pages/PropertyDetails.tsx:94-101 | rent and non-zero deposit texts read back as the exact amount |
| MyProperties.OnMount | src/pages/MyProperties.tsx:63-69 | without a user the page navigates to `/auth`; otherwise it fetches for that user's id |
| MyProperties.ApplyRows | src/pages/MyProperties.tsx:80-84 | rows replace the list, `[]` for null data; an error or a throw keeps the list |
| MyProperties.Fetch | src/pages/MyProperties.tsx:71-108 | loading always ends; rows (or `[]` for null) replace a list; an error or a throw keeps that list; a throw from the sale query skips the rental query; an error toast exactly on a throw, and never a success toast |
| MyProperties.FetchTablesIndependent | src/pages/MyProperties.tsx:76-97 | each table's result affects only its own list |
| MyProperties.WithoutSale | src/pages/MyProperties.tsx:121 | removing an id keeps a subsequence in which that id has no records and every other record keeps its multiplicity |
| MyProperties.WithoutRental | src/pages/MyProperties.tsx:147 | the same for rental records |
| MyProperties.DeleteSale | src/pages/MyProperties.tsx:110-134 | a failed delete leaves the page unchanged with an error toast; a successful one removes exactly that id from the sale list; the rental list is never touched |
| MyProperties.DeleteRental | src/pages/MyProperties.tsx:136-160 | symmetric to the sale delete |
| MyProperties.DeleteSaleIdempotent | src/pages/MyProperties.tsx:121 | after a successful delete no record has the id, and deleting again changes nothing |
| MyProperties.TabBody | src/pages/MyProperties.tsx:215-234 | the skeleton exactly while loading; the empty notice exactly for an empty finished list; otherwise one card per record |
| MyProperties.Render | src/pages/MyProperties.tsx:176-342 | nothing is rendered exactly when there is no user; tab titles count the two lists; each tab's body is the skeleton while loading, the empty notice for an empty list, and the card grid otherwise |
| MyProperties.SaleCardOf | src/pages/MyProperties.tsx:251-272 | price by `formatPrice`; beds and baths print `v \|\| 0`, and a present bedroom count is printed as is; the area slot follows its `{area && …}` guard; location shown exactly when present |
| MyProperties.RentalCardOf | src/pages/MyProperties.tsx:356-397 | rent by `formatRent`; "Office" for non-positive or null bedrooms, otherwise that count; baths and parking print `v \|\| 0`; the area slot follows its guard; furnished badge exactly when present |
| PropertyDetails.TableFor | src/pages/PropertyDetails.tsx:54 | the sale table exactly for type "sale", the rental table for every other type |
| PropertyDetails.Load | src/pages/PropertyDetails.tsx:46-82 | a query is made exactly when both route segments are non-empty, on the table the type selects; without one the page stays in its initial loading state; a found row is tagged with the route type; an error or throw leaves no property; the error toast shows exactly when a query was made and found no row |
| PropertyDetails.ViewOf | src/pages/PropertyDetails.tsx:220-360 | price line only for sale rows, rent line only for rental rows; deposit only inside a shown rent line; each amount line follows its `{v && …}` guard, so a zero price, rent or deposit prints "0"; each shown amount is printed by `formatPrice`, `formatRent` or `formatDeposit`; bedrooms need a positive count, while bathrooms, parking and area follow the `{v && …}` guard; the furnished badge shows exactly on a rental row with a furnished value; each contact line shows exactly when its column is present; the description falls back to a fixed notice; amenities exactly for a non-empty list; contact role "Agent" exactly for sale |
| PropertyDetails.ScreenOf | src/pages/PropertyDetails.tsx:103-152 | the loading screen exactly while loading; "not found" exactly once loading ended without a property |
| PropertyDetails.SaleCardAgreesWithDetails | src/pages/MyProperties.tsx:251-272 | a sale card and the detail page of the same row print the same text for a non-zero price, and show the area on both or on neither |
| PropertyDetails.RentalCardAgreesWithDetails | src/pages/MyProperties.tsx:356-397 | a rental card and the detail page of the same row print the same text for a non-zero rent; the card says "Office" exactly when the page has no bedrooms line; area and furnished badge show on both or on neither |
| PropertyDetails.LoadOutcomes | src/pages/PropertyDetails.tsx:46-81 | a failed fetch ends on "not found"; a route missing a segment stays on the loading screen; a found row shows details |
| PropertyDetails.UnknownKindShowsNoAmount | src/pages/PropertyDetails.tsx:54 | an unknown type reads the rental table but shows no price, no rent, no rental block, and "Contact Owner" |
| PropertyDetails.ZeroBedroomsPrintsZero | src/pages/PropertyDetails.tsx:273 | zero bedrooms prints a bare "0" |
| RentListing.SetField | src/pages/RentListProperty.tsx:46-48 | the named field takes the value; every other field and the amenities are unchanged |
| RentListing.FormExtensionality | src/pages/RentListProperty.tsx:16-35 | a form is determined by its seventeen text fields and its amenities |
| RentListing.SetFieldLaws | src/pages/RentListProperty.tsx:46-48 | writing a field's own value is the identity; a second write to a field overrides the first |
| RentListing.ToggleAmenity | src/pages/RentListProperty.tsx:50-57 | membership flips; removal keeps every other amenity's count and order; addition appends at the end |
| RentListing.ToggleTwiceRestores | src/pages/RentListProperty.tsx:50-57 | checking then unchecking an amenity restores the list |
| RentListing.ToggleKeepsDistinct | src/pages/RentListProperty.tsx:53-55 | a duplicate-free amenity list stays duplicate-free |
| RentListing.AddFiles | src/pages/RentListProperty.tsx:59-62 | the picked files (none for null) follow the existing ones |
| RentListing.DropAt | src/pages/RentListProperty.tsx:65 | one element fewer, every element before the index in place and every later one shifted down by one; an index outside the list removes nothing |
| RentListing.AddThenRemove | src/pages/RentListProperty.tsx:59-66 | removing the file just picked restores the list; removing before or after picking more gives the same list |
| RentListing.RemoveFileAt | src/pages/RentListProperty.tsx:64-66 | the loop keeps every file except the one at the index, so the result equals `DropAt` |
| RentListing.OrNull | src/pages/RentListProperty.tsx:106 | `s \|\| null` is null exactly for the empty string, and reads back as `s` |
| RentListing.ParsedOrNull | src/pages/RentListProperty.tsx:110-113 | null exactly for the empty string, otherwise the parse of the raw text |
| RentListing.BuildRecord | src/pages/RentListProperty.tsx:103-124 | the record carries the user id and parsed rent; every optional text field is null exactly when empty; the deposit is parsed after comma stripping and is null when empty; the four counts are parsed from the raw text without stripping and are null when empty; amenities null exactly when none; images empty |
| RentListing.RecordKeepsText | src/pages/RentListProperty.tsx:103-124 | every text field and the amenities read back from the record, null standing for empty |
| RentListing.Submit | src/pages/RentListProperty.tsx:68-180 | no user: redirect to `/auth`, nothing sent, state unchanged; missing title/rent/type: nothing sent, state unchanged; a record is sent exactly when the comma-stripped rent parses, and it is the record built from the form; an unparsable rent fails with "Invalid monthly rent format" and keeps the form; an insert error fails with its message or the default text; success resets the form and files; failure keeps them; the submitting flag ends false |
| RentListing.NonPositiveRentAccepted | src/pages/RentListProperty.tsx:95-100 | a zero or negative rent that parses is listed with that value |
| RentListing.ScreenFor | src/pages/RentListProperty.tsx:182-564 | the login prompt exactly without a user; the submit button is disabled exactly while submitting and reads "Listing Property..." then, "List My Rental Property" otherwise |
| AuthButton.Decide | src/components/AuthButton.tsx:12-31 | a loading button exactly while loading; the account menu exactly when loaded with a user; the login link to `/auth` otherwise |
| AuthButton.DecideIgnoresWhichUser | src/components/AuthButton.tsx:12-22 | the control depends on whether a user is present, not on which, and loading overrides the user |
| AuthPage.Toggle | src/pages/Auth.tsx:171 | the mode flips and nothing else changes |
| AuthPage.ToggleTwice | src/pages/Auth.tsx:171 | toggling twice is the identity |
| AuthPage.SubmitAuth | src/pages/Auth.tsx:29-77 | login calls only sign-in and keeps the mode; a blank trimmed name stops signup before any call; signup success switches to login mode; loading ends false on every path; the typed email, password, name and phone are never changed; a returned error shows "Login Failed" or "Signup Failed" with the error's message, or a fixed fallback when that message is empty |
| AuthPage.SignupNeedsVisibleName | src/pages/Auth.tsx:44-53 | signup is attempted exactly when the name has a non-white-space character |
| AuthPage.SignupThenSignIn | src/pages/Auth.tsx:60-66 | after a successful signup the next submit signs in with the same credentials |
| AuthPage.RedirectTarget | src/pages/Auth.tsx:23-27 | a present user redirects to "/" and only then |
| AuthPage.ViewOf | src/pages/Auth.tsx:106-163 | name and phone fields exactly in signup mode; the button is disabled and says "Please wait..." exactly while loading; otherwise it says "Sign In" in login mode and "Create Account" in signup mode |

## Left out

- Remote calls are not modelled. The back-end client and the session provider (`useAuth`) are replaced by input results.
- Digits are not modelled. `toFixed(1)` and `toLocaleString()` depend on floating point and the browser locale, so the printed number is kept abstract as a `Figure`.
- Parsing is not modelled. `parseFloat` and `parseInt` are function parameters returning a number or NaN, because their prefix-parsing rules are not part of the pages' logic.
- Amounts are integers. Fractional and infinite values from `parseFloat` are not represented.
- Text.Lower: handles ASCII letters only; the full Unicode case mapping of `toLowerCase` is not modelled.
- Toasts, `console` output and navigation are returned as tags; their rendering is not modelled.
- The detail page's image gallery index and the hard-coded catalogue contents are not modelled.
- The presentational pages are not part of this model: Index.tsx, Developer.tsx, Sell.tsx, Account.tsx, AccountDropdown.tsx and the generated `types.ts`.
- Catalogue.Visible: the catalogue cards are fixed data in the page source; the model takes any list of cards.
- RentListing.Submit: the deposit's `parseFloat` is evaluated before the NaN check of the rent in the source; since it has no effect, the model only evaluates it when building the record.
- Pricing.FormatPriceFigureRange: bounds the figure before rounding only; `toFixed(1)` prints "100.0 Lakh" for prices from 99,95,000 to 99,99,999, and the digits are not modelled.
- React's batching and re-render timing are not modelled; each handler is one atomic step.
