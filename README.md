# Neighbourhood hub: a verified model of the content view

The application lets a visitor enter a ZIP code, which picks one of five known locations. They
then choose one of ten categories: news, sports, business, jobs, real estate, forum, classifieds,
dating, coupons and obituaries. Choosing a category starts a load. After a delay, the category's
generated records for the location's city become the content.

On top of that content the search-and-filter panel offers three operations:

- a free-text search over the titles, names, descriptions, summaries and biographies;
- a sort by one of the category's fields, toggling between descending and ascending;
- drop-down filters for the business, jobs and real-estate categories.

The Dafny project models:

- `values.dfy`: the untyped record values the view handles. A record is a map from field names to
  values, and a missing field reads as undefined. The module also holds JavaScript truthiness,
  lower-casing, substring search, string ordering, and the numeric parsing used by the filters
  (`parseFloat`, `parseInt`, `Number`, `split`, `replace`).
- `seqs.dfy`: the array `filter`, as an order-preserving selection with its subsequence and
  count properties.
- `content.dfy`: the ZIP-code table and the mock-data generator.
- `query.dfy`: the search predicate, the filter loop over the chosen entries, the sort comparator,
  and the engine's sort. The sort is written as an in-place insertion sort on a copied array.
- `app.dfy`: the application's state (`currentLocation`, `selectedCategory`, `contentData`,
  `filteredData`, `contentLoading`) as a class. Its handlers are the methods, and two scenarios
  show loads landing out of order.
- `controls.dfy`: the panel's own state (`searchQuery`, `sortBy`, `sortOrder`, `showFilters`) as
  a class, and the tables of sort options and filter choices it offers.

Several behaviours of the code are reproduced as written and stated as lemmas:

- The open-ended price choice `600000+` keeps no listing.
- The business-category choices are lower-case, while the generated categories are capitalised,
  so those choices keep nothing.
- No generated record has a `date` field, so sorting by date compares nothing and the comparator
  always answers -1.
- A location change empties the content but leaves the view as it was.
- A load scheduled before a later selection or location change still overwrites the content
  when it completes.

## Model

| member | source | states |
|---|---|---|
| Content.LookupZip | src/App.tsx:14-20 | a location is found exactly for the five advertised ZIP codes, and it carries the code it was looked up by |
| Content.GenerateMockData | src/App.tsx:22-194 | every generated record holds strings (or nothing) in its searchable text fields, and none has a `date` field |
| Content.MockDataCounts | src/App.tsx:22-194 | each category yields its fixed number of records: two news items, two businesses, two dating profiles, two coupons, and one record of every other kind |
| Content.GeneratedSameShape | src/App.tsx:22-194 | the records of one category share their shape: every field other than a business's `website` and a coupon's `code` holds a string in all of them or in none |
| Content.BusinessAddressesContainLocation | src/App.tsx:57-76 | every generated business address contains the location's name |
| Seqs.Select | src/App.tsx:258-277 | a selection is a subsequence of its input and keeps only elements that pass the test |
| Seqs.SelectCounts | src/App.tsx:258-277 | a selection keeps every occurrence of each passing element and adds nothing |
| Seqs.SelectUnique | src/App.tsx:258-277 | any subsequence that keeps exactly the passing elements is the selection |
| Query.Search | src/App.tsx:255-279 | a blank query (nothing but the white space and line terminators `trim` removes, Unicode space separators included) gives back all the content; otherwise the result is the subsequence of matching records, with every match kept. A titled record matches on its title, description or summary; an untitled record with a name matches on its name, bio or description |
| Values.IsBlank | src/App.tsx:256 | a query is blank exactly when trimming its leading white space leaves nothing, so `trim` leaves nothing either |
| Values.TrimStartEmpty | src/App.tsx:256 | trimming leaves nothing exactly when every character is white space |
| Query.Matches | src/App.tsx:261-276 | a record is matched only if it has a truthy title or name, and then only if one of its title, name, description, summary or bio contains the query |
| Query.IdeographicSpaceShowsEverything | src/App.tsx:256-259 | a query of one ideographic space, which `trim` removes, gives back all the content |
| Query.UntitledUnnamedNeverFound | src/App.tsx:262-276 | a record with neither a title nor a name is never found by a non-blank query |
| Query.SearchNewsByLocation | src/App.tsx:24-43 | searching the generated news for the location's name finds every headline |
| Query.ApplyFilters | src/App.tsx:302-330 | the loop over the filter entries leaves exactly the records that satisfy every active entry |
| Query.FilteredIsSelection | src/App.tsx:302-330 | the filtered view is a subsequence of the content, every kept record satisfies every active entry, and every record that does is kept |
| Query.FilterStep | src/App.tsx:305-329 | one pass of the loop narrows the previous result by one entry |
| Query.FilteredAppend | src/App.tsx:305-329 | filtering by two lists of entries in turn equals filtering by their concatenation |
| Query.InactiveFiltersKeepAll | src/App.tsx:306-307 | entries whose value is empty or `all` keep every record |
| Query.Holds | src/App.tsx:307-325 | a record kept by an entry has the field the entry tests: `price` for a price range, the entry's own key otherwise, since `undefined` fails every comparison and every strict equality |
| Query.RatingAtLeast | src/App.tsx:308-311 | a rating choice `n+` keeps a record exactly when its rating is at least n |
| Query.PriceRangeInclusive | src/App.tsx:312-319 | a range `a-b` keeps a record exactly when its price lies between a and b, both inclusive |
| Query.OpenEndedPriceKeepsNothing | src/App.tsx:312-319 | the choice `600000+` keeps no record at all: split at `-` it stays one piece, `Number` of that piece is NaN, so the lower bound is NaN and the `item.price >= min` test of the no-upper-bound branch fails for every record |
| Query.OpenEndedPriceIsNaN | src/App.tsx:313-316 | splitting `600000+` at `-` leaves one piece, and that piece is not a number |
| Query.BedroomsAtLeast | src/App.tsx:320-323 | a bedrooms choice n keeps a record exactly when it has at least n bedrooms |
| Query.OtherKeysStrictEquality | src/App.tsx:324 | any other key keeps a record exactly when the record's field equals the chosen value as a string |
| Query.Comparator | src/App.tsx:283-297 | the comparator answers 1 or -1, and 1 exactly when the first record must come after the second in the requested order |
| Query.Greater | src/App.tsx:293-295 | `undefined` on either side is never greater, and two numbers compare by value |
| Query.DateComparatorConstant | src/App.tsx:283-297 | on generated records the date comparison always answers -1, since no record has a date |
| Query.BeforeTransitive | src/App.tsx:283-297 | on comparable keys the comparator's order is transitive |
| Query.BeforeTotal | src/App.tsx:283-297 | on comparable keys of the same kind, of any two records one comes first |
| Query.BeforeAsymmetric | src/App.tsx:283-297 | no two records each come before the other, whatever the kinds of their keys |
| Query.SameShapeUniform | src/App.tsx:286-289 | on records of one shape, any field but the optional ones is a string in all records or in none, so the comparator never lower-cases a non-string |
| Query.SortedCopy | src/App.tsx:281-300 | the sorted view is a permutation of the input and, when the keys are comparable, is ordered by the comparator |
| Query.OrderedUnique | src/App.tsx:281-300 | two arrangements of the same records, each strictly ordered by the same field and order, are equal: a sort with strictly ordered keys has one result |
| Query.AscDescReverse | src/App.tsx:281-300 | sorting the same records by the same field ascending and descending, with strictly ordered keys, gives one sequence and its reverse |
| Query.Insert | src/App.tsx:283-298 | one insertion step keeps the array a permutation and extends the ordered prefix by one |
| Query.SwapDown | src/App.tsx:283-298 | one exchange swaps two neighbours and keeps the array a permutation |
| AppView.App.constructor | src/App.tsx:198-203 | the view starts with no location, no category and no content |
| AppView.App.HandleLocationChange | src/App.tsx:213-231 | a known code sets its location, clears the category and empties the content, leaving the view and the loading flag; an unknown code changes nothing |
| AppView.App.BeginLoad | src/App.tsx:233-246 | without a location nothing happens; otherwise the category is selected, loading starts, and a completion is scheduled with the current city |
| AppView.App.CompleteLoad | src/App.tsx:247-251 | the content and the view both become the generated data of the captured category and city, and loading ends, whatever was selected since |
| AppView.App.HandleSearch | src/App.tsx:255-279 | the view becomes the search result over all the content; nothing else changes |
| AppView.App.HandleSort | src/App.tsx:281-300 | the view keeps the same records and, when their keys are comparable, is put in the requested order |
| AppView.App.HandleFilter | src/App.tsx:302-330 | the view becomes the content narrowed by every active entry, whatever the previous view was |
| AppView.ViewSortable | src/App.tsx:281-300 | in every state the class invariant allows, whatever search, filter, sort or pending load came before, the view can be sorted by any field but the optional ones |
| AppView.OfferedFieldSortable | src/components/SearchFilter.tsx:35-74 | every field the panel offers, for any category, meets the requirement of `HandleSort` on the current view |
| AppView.SortAfterSearch | src/App.tsx:255-330 | a search, a sort by an offered field, a filter and another sort can follow each other from any valid state, and the view ends as a permutation of the filtered content |
| AppView.StaleLoadScenario | src/App.tsx:233-252 | two quick selections completing in reverse order leave sports selected but news content shown |
| AppView.StaleCityScenario | src/App.tsx:213-252 | a location change during a load leaves the new location, no category, and the old city's content |
| SearchFilterPanel.SortOptions | src/components/SearchFilter.tsx:35-74 | every category offers at least two sort fields, all distinct, and none of them is an optional field |
| SearchFilterPanel.SortOptionsUniform | src/components/SearchFilter.tsx:35-74 | every offered sort field is a string in all of the category's generated records or in none, so sorting them by it never throws |
| SearchFilterPanel.Emit | src/components/SearchFilter.tsx:82-158 | a choice sends a single entry keyed by its select |
| SearchFilterPanel.FilterOptions | src/components/SearchFilter.tsx:76-164 | filters exist exactly for business, jobs and real estate, with keys category and rating, type, and type, bedrooms and price range respectively, each with an `all` choice |
| SearchFilterPanel.BusinessCategoryChoicesKeepNothing | src/components/SearchFilter.tsx:86-90 | every business category choice but `all` (`restaurant`, `healthcare`, `retail`, `services`) keeps none of the generated businesses, whose categories are capitalised and are compared by strict equality (src/App.tsx:324) |
| SearchFilterPanel.ChoosingAllShowsEverything | src/components/SearchFilter.tsx:76-164 | choosing `all` in any select shows all the content |
| SearchFilterPanel.PriceChoices | src/components/SearchFilter.tsx:152-155 | the three bounded price choices keep exactly the listings priced within their inclusive ranges |
| SearchFilterPanel.OpenEndedPriceChoice | src/components/SearchFilter.tsx:156 | the `$600k+` choice keeps no listing |
| SearchFilterPanel.RatingChoicesOnListings | src/components/SearchFilter.tsx:98-101 | on the generated businesses, the ratings 2+, 3+ and 4+ keep every listing |
| SearchFilterPanel.NextOrder | src/components/SearchFilter.tsx:28-33 | the new order is ascending exactly when the same field is chosen again while descending |
| SearchFilterPanel.OrderButtonAlternates | src/components/SearchFilter.tsx:197 | the order button flips the order, and pressing it twice restores it |
| SearchFilterPanel.NewFieldSortsDescending | src/components/SearchFilter.tsx:28-33 | choosing a different field always sorts descending |
| SearchFilterPanel.SearchFilter.constructor | src/components/SearchFilter.tsx:18-21 | the panel starts with an empty query, sorted by date descending, filters hidden |
| SearchFilterPanel.SearchFilter.HandleSearch | src/components/SearchFilter.tsx:23-26 | the query is stored and forwarded unchanged; nothing else changes |
| SearchFilterPanel.SearchFilter.ClearSearch | src/components/SearchFilter.tsx:229 | the clear button forwards a blank query, which shows all the content |
| SearchFilterPanel.SearchFilter.HandleSort | src/components/SearchFilter.tsx:28-33 | the field and the toggled order are stored and forwarded |
| SearchFilterPanel.SearchFilter.PressOrder | src/components/SearchFilter.tsx:197 | the order button keeps the field and flips the order |
| SearchFilterPanel.SearchFilter.ToggleFilters | src/components/SearchFilter.tsx:206 | the Filters button flips the visibility of the filter row and nothing else |
| SearchFilterPanel.SearchFilter.ChangeCategory | src/App.tsx:388-396 | the one panel rendered for every selected category takes the new category and keeps its query, sort field, sort order and filter-row state |
| SearchFilterPanel.StateSurvivesCategorySwitch | src/App.tsx:388-396 | after sorting businesses by rating and searching, a switch to news keeps the rating field, the descending order, the query and the open filter row, which then shows nothing |
| SearchFilterPanel.SearchFilter.FilterRowShown | src/components/SearchFilter.tsx:216 | the filter row is on screen exactly when it has been toggled open and the current category is business, jobs or real estate |
| SearchFilterPanel.OpenFilterRow | src/components/SearchFilter.tsx:216 | once toggled open, a filter row shows exactly for business, jobs and real estate |
| Values.LowerConcat | src/App.tsx:259-274 | lower-casing distributes over concatenation |
| Values.StrLessTransitive | src/App.tsx:287-291 | the string order used by the comparator is transitive |
| Values.StrLessTotal | src/App.tsx:287-291 | of two different strings one is less than the other |
| Values.SplitTwo | src/App.tsx:313 | splitting `a-b` at `-`, where neither part holds a dash, gives the two parts |

## Left out

- Rendering, styling, icons, the header, the hero section, and the result counter are not modelled.
  Neither are sign-in state or the notifications the handlers raise.
- The one-second delay of a load is the gap between `BeginLoad` and `CompleteLoad`. Any
  interleaving can be written by calling them in that order, but the timer is not modelled.
- The clock is a parameter: the generator receives a function from a millisecond offset to the
  ISO timestamp text it writes.
- The record types under `src/types` are not separate datatypes. Records are maps from field
  names to untyped values, as the handlers treat them.
- Query.Search: requires every record's text fields (title, name, description, summary, bio) to
  hold strings or be absent. The code throws only when a field it actually reads holds a truthy
  non-string; the requirement is stronger and also excludes records the code handles, such as a
  falsy numeric title or a numeric bio on a titled record. Every generated record meets it.
- Query.SortedCopy: requires that when any record's key is a string, all are. Otherwise the code
  throws on `bValue.toLowerCase()` whenever the engine happens to pass a string-keyed record as
  the first argument, which depends on the engine's order of comparisons. `AppView.ViewSortable`
  proves the requirement in every state the class invariant allows, for every field other than a
  business's `website` and a coupon's `code`, which no category offers as a sort field.
- Query.SortedCopy: the engine's built-in sort is written as an insertion sort. Only what every
  engine guarantees is stated: a permutation, ordered when the comparator is consistent. The
  relative order of equal keys, and the engine's result for an inconsistent comparator, are not
  modelled.
- Query.Comparator, Query.Holds: a list or object operand of the comparator's `>`/`<` or the
  filter's `>=`/`<=` converts to NaN, so it is never greater, at least or at most. JavaScript
  converts it through its string form instead, so `[4] >= 4` holds there but not here. No
  generated record holds a list or object in a field the panel offers for sorting or filtering.
- Values.ToNumber: `parseFloat`, `parseInt` and `Number` accept only unsigned decimal digits with
  an optional fraction. Signs, exponents, hexadecimal forms and white space around a number are
  not modelled, and anything unparsed reads as NaN; a string of white space alone gives 0, as in
  JavaScript.
- Values.Lower: lower-cases ASCII letters only. String length and order are per character, not
  per UTF-16 unit.
- The panel is created with the first selected category and keeps its state across category
  switches. Its removal when a location change clears the category, and its fresh state on the next
  selection, are the constructor called again.
- The placeholder texts and captions of the controls are not modelled beyond the option values.
