/** The search-and-filter bar shown above a category's content: its own state (the query
    typed, the sort field and order, whether the filter row is open), what each control
    forwards to the application view, and the per-category tables of sort fields and filter
    selects. */
module SearchFilterPanel {
  import opened Values
  import opened Content
  import opened Seqs
  import opened Query

  /** One entry of the sort-field select. */
  datatype SortOption = SortOption(value: string, caption: string)

  /** `getSortOptions()`. */
  function SortOptions(category: Category): (opts: seq<SortOption>)
    ensures |opts| >= 2
    ensures forall i, j | 0 <= i < j < |opts| :: opts[i].value != opts[j].value
    ensures forall o | o in opts :: o.value !in OptionalFields
  {
    match category
    case News => NewsSortOptions
    case Sports => NewsSortOptions
    case Business => [SortOption("name", "Name"), SortOption("rating", "Rating"), SortOption("category", "Category")]
    case Jobs => [SortOption("date", "Date Posted"), SortOption("title", "Job Title"), SortOption("company", "Company")]
    case RealEstate => [SortOption("price", "Price"), SortOption("bedrooms", "Bedrooms"), SortOption("sqft", "Square Feet")]
    case Coupons => [SortOption("validUntil", "Expiry Date"), SortOption("business", "Business"), SortOption("discount", "Discount")]
    case _ => [SortOption("date", "Date"), SortOption("title", "Title")]
  }

  const NewsSortOptions: seq<SortOption> :=
    [SortOption("date", "Date"), SortOption("title", "Title"), SortOption("source", "Source")]

  /** One choice of a filter select: the directive value it emits and its caption. */
  datatype SelectItem = SelectItem(value: string, caption: string)

  /** A filter select: choosing `value` in it calls `onFilter({ [key]: value })`. */
  datatype FilterSelect = FilterSelect(key: string, items: seq<SelectItem>)

  /** The filter object one choice emits: a single entry. */
  function Emit(s: FilterSelect, value: string): (filters: seq<Directive>)
    ensures |filters| == 1 && filters[0].key == s.key && filters[0].value == value
  {
    [Directive(s.key, value)]
  }

  const BusinessCategorySelect: FilterSelect := FilterSelect("category", [
    SelectItem("all", "All Categories"), SelectItem("restaurant", "Restaurant"),
    SelectItem("healthcare", "Healthcare"), SelectItem("retail", "Retail"),
    SelectItem("services", "Services")])

  const RatingSelect: FilterSelect := FilterSelect("rating", [
    SelectItem("all", "All Ratings"), SelectItem("4+", "4+ Stars"), SelectItem("3+", "3+ Stars"),
    SelectItem("2+", "2+ Stars")])

  const JobTypeSelect: FilterSelect := FilterSelect("type", [
    SelectItem("all", "All Types"), SelectItem("full-time", "Full Time"),
    SelectItem("part-time", "Part Time"), SelectItem("contract", "Contract")])

  const ListingTypeSelect: FilterSelect := FilterSelect("type", [
    SelectItem("all", "All Types"), SelectItem("sale", "For Sale"), SelectItem("rent", "For Rent")])

  const BedroomsSelect: FilterSelect := FilterSelect("bedrooms", [
    SelectItem("all", "Any"), SelectItem("1", "1+"), SelectItem("2", "2+"), SelectItem("3", "3+"),
    SelectItem("4", "4+")])

  const PriceRangeSelect: FilterSelect := FilterSelect("priceRange", [
    SelectItem("all", "Any Price"), SelectItem("0-200000", "Under $200k"),
    SelectItem("200000-400000", "$200k - $400k"), SelectItem("400000-600000", "$400k - $600k"),
    SelectItem("600000+", "$600k+")])

  /** `getFilterOptions()`: the selects of the filter row, None where it renders nothing.
      Filters are offered for business, jobs and real estate only; the keys are the ones
      listed; every select offers `'all'` first, which filters nothing. */
  function FilterOptions(category: Category): (opts: Option<seq<FilterSelect>>)
    ensures opts.Some? <==> category in {Business, Jobs, RealEstate}
    ensures category == Business ==> KeysOf(opts.value) == ["category", "rating"]
    ensures category == Jobs ==> KeysOf(opts.value) == ["type"]
    ensures category == RealEstate ==> KeysOf(opts.value) == ["type", "bedrooms", "priceRange"]
    ensures opts.Some? ==>
      forall s | s in opts.value :: |s.items| >= 2 && s.items[0].value == "all" && !Active(Emit(s, "all")[0])
  {
    match category
    case Business => Some([BusinessCategorySelect, RatingSelect])
    case Jobs => Some([JobTypeSelect])
    case RealEstate => Some([ListingTypeSelect, BedroomsSelect, PriceRangeSelect])
    case _ => None
  }

  function KeysOf(selects: seq<FilterSelect>): seq<string>
  {
    seq(|selects|, i requires 0 <= i < |selects| => selects[i].key)
  }

  /** The business category choices are lower-case while the listings carry capitalised
      categories, and any key but rating, price range and bedrooms is matched by strict equality:
      every choice but `'all'` keeps no listing. */
  lemma BusinessCategoryChoicesKeepNothing(location: string, iso: int -> string, i: int)
    requires 1 <= i < |BusinessCategorySelect.items|
    ensures Filtered(BusinessListings(location, iso), Emit(BusinessCategorySelect, BusinessCategorySelect.items[i].value)) == []
  {
    var items := BusinessListings(location, iso);
    var d := Directive("category", BusinessCategorySelect.items[i].value);
    assert "Restaurant"[0] != "restaurant"[0] && "Restaurant"[0] != "healthcare"[0];
    assert "Healthcare"[0] != "healthcare"[0] && "Healthcare"[0] != "restaurant"[0];
    assert |"Restaurant"| != |"retail"| && |"Healthcare"| != |"retail"|;
    assert |"Restaurant"| != |"services"| && |"Healthcare"| != |"services"|;
    forall x | x in items ensures !SatisfiesAll(x, [d]) {
      assert [d][0] == d;
    }
    SelectNone(items, x => SatisfiesAll(x, [d]));
  }

  /** Whatever the content, choosing `'all'` in a select shows all of it. */
  lemma ChoosingAllShowsEverything(items: seq<Record>, s: FilterSelect)
    ensures Filtered(items, Emit(s, "all")) == items
  {
    InactiveFiltersKeepAll(items, Emit(s, "all"));
  }

  /** What the real-estate price choices keep: the `k`-th bounded range, `k` from 1 to 3, keeps
      the records priced from 200000 * (k - 1) to 200000 * k, both ends included. */
  lemma PriceChoices(r: Record, k: int)
    requires 1 <= k <= 3
    ensures Holds(r, Directive("priceRange", PriceRangeSelect.items[k].value))
        <==> PricedWithin(r, 200000.0 * (k - 1) as real, 200000.0 * k as real)
  {
    DigitsValues();
    if k == 1 {
      assert "0" + "-" + "200000" == PriceRangeSelect.items[k].value;
      PriceRangeInclusive(r, "0", "200000");
    } else if k == 2 {
      assert "200000" + "-" + "400000" == PriceRangeSelect.items[k].value;
      PriceRangeInclusive(r, "200000", "400000");
    } else {
      assert "400000" + "-" + "600000" == PriceRangeSelect.items[k].value;
      PriceRangeInclusive(r, "400000", "600000");
    }
  }

  /** The last price choice, `'600000+'`, keeps nothing. */
  lemma OpenEndedPriceChoice(r: Record)
    ensures PriceRangeSelect.items[4].value == "600000+"
    ensures !Holds(r, Directive("priceRange", PriceRangeSelect.items[4].value))
  {
    OpenEndedPriceIsNaN();
  }

  predicate PricedWithin(r: Record, low: real, high: real)
  {
    "price" in r && ToNumeric(r["price"]).Some? && low <= ToNumeric(r["price"]).value <= high
  }

  lemma DigitsValues()
    ensures AllDigits("0") && DigitsValue("0") == 0
    ensures AllDigits("200000") && DigitsValue("200000") == 200000
    ensures AllDigits("400000") && DigitsValue("400000") == 400000
    ensures AllDigits("600000") && DigitsValue("600000") == 600000
  {
    assert "200000"[..5] == "20000" && "20000"[..4] == "2000" && "2000"[..3] == "200";
    assert "200"[..2] == "20" && "20"[..1] == "2" && "2"[..0] == "";
    assert "400000"[..5] == "40000" && "40000"[..4] == "4000" && "4000"[..3] == "400";
    assert "400"[..2] == "40" && "40"[..1] == "4" && "4"[..0] == "";
    assert "600000"[..5] == "60000" && "60000"[..4] == "6000" && "6000"[..3] == "600";
    assert "600"[..2] == "60" && "60"[..1] == "6" && "6"[..0] == "";
    assert "0"[..0] == "";
  }

  /** The business rating choices on generated listings (rated 4.5 and 4.2): `'4+'`, `'3+'`
      and `'2+'` keep both. */
  lemma RatingChoicesOnListings(location: string, iso: int -> string, n: string)
    requires n in ["4", "3", "2"]
    ensures Filtered(BusinessListings(location, iso), Emit(RatingSelect, n + "+")) == BusinessListings(location, iso)
  {
    var items := BusinessListings(location, iso);
    var d := Directive("rating", n + "+");
    assert [n][0] == n && n != [] && AllDigits(n) && DigitsValue(n) <= 4;
    forall x | x in items ensures SatisfiesAll(x, [d]) {
      RatingAtLeast(x, n);
      assert [d][0] == d;
    }
    SelectAll(items, x => SatisfiesAll(x, [d]));
  }

  /** The order a press on sort field `field` asks for: ascending exactly when the field is
      the current one and the current order is descending. */
  function NextOrder(sortBy: string, sortOrder: Order, field: string): (o: Order)
    ensures o == Asc <==> sortBy == field && sortOrder == Desc
  {
    if sortBy == field && sortOrder == Desc then Asc else Desc
  }

  /** The order button presses the current field again: the order alternates, and two presses
      bring back the state before them. */
  lemma OrderButtonAlternates(sortBy: string, sortOrder: Order)
    ensures NextOrder(sortBy, sortOrder, sortBy) != sortOrder
    ensures NextOrder(sortBy, NextOrder(sortBy, sortOrder, sortBy), sortBy) == sortOrder
  {
  }

  /** Choosing a different field always sorts it descending first. */
  lemma NewFieldSortsDescending(sortBy: string, sortOrder: Order, field: string)
    requires field != sortBy
    ensures NextOrder(sortBy, sortOrder, field) == Desc
  {
  }

  /** Every field offered for a category can be sorted on that category's fresh content without
      the comparator throwing. */
  lemma SortOptionsUniform(category: Category, location: string, iso: int -> string, i: int)
    requires 0 <= i < |SortOptions(category)|
    ensures UniformKey(GenerateMockData(category, location, iso), SortOptions(category)[i].value)
  {
    GeneratedSameShape(category, location, iso);
    assert SortOptions(category)[i] in SortOptions(category);
    SameShapeUniform(GenerateMockData(category, location, iso), SortOptions(category)[i].value);
  }

  /** The bar's own state. The application renders one bar in one place for whichever category
      is selected, so the bar is created when a category is first selected and keeps its state
      when another is chosen; only its `category` property changes. */
  class SearchFilter {
    var category: Category
    var searchQuery: string
    var sortBy: string
    var sortOrder: Order
    var showFilters: bool

    /** Empty query, sorted by `date` descending, filter row closed. */
    constructor (category: Category)
      ensures this.category == category
      ensures searchQuery == "" && sortBy == "date" && sortOrder == Desc && !showFilters
    {
      this.category := category;
      searchQuery := "";
      sortBy := "date";
      sortOrder := Desc;
      showFilters := false;
    }

    /** `handleSearch(query)`: the raw query is kept and forwarded untrimmed. */
    method HandleSearch(query: string) returns (forwarded: string)
      modifies this
      ensures forwarded == query && searchQuery == query
      ensures sortBy == old(sortBy) && sortOrder == old(sortOrder) && showFilters == old(showFilters)
      ensures category == old(category)
    {
      searchQuery := query;
      forwarded := query;
    }

    /** The clear button: `handleSearch('')`, which downstream shows all the content. */
    method ClearSearch() returns (forwarded: string)
      modifies this
      ensures forwarded == "" && IsBlank(forwarded) && searchQuery == ""
      ensures sortBy == old(sortBy) && sortOrder == old(sortOrder) && showFilters == old(showFilters)
      ensures category == old(category)
    {
      forwarded := HandleSearch("");
    }

    /** `handleSort(field)`: the field becomes the sort field, the order follows NextOrder, and
        exactly that pair is forwarded. */
    method HandleSort(field: string) returns (sortField: string, order: Order)
      modifies this
      ensures sortField == field && order == NextOrder(old(sortBy), old(sortOrder), field)
      ensures sortBy == sortField && sortOrder == order
      ensures searchQuery == old(searchQuery) && showFilters == old(showFilters) && category == old(category)
    {
      var newOrder := NextOrder(sortBy, sortOrder, field);
      sortBy := field;
      sortOrder := newOrder;
      sortField, order := field, newOrder;
    }

    /** The order button: `handleSort(sortBy)`; the field stays and the order flips. */
    method PressOrder() returns (sortField: string, order: Order)
      modifies this
      ensures sortField == old(sortBy) == sortBy
      ensures order == sortOrder != old(sortOrder)
      ensures searchQuery == old(searchQuery) && showFilters == old(showFilters) && category == old(category)
    {
      OrderButtonAlternates(sortBy, sortOrder);
      sortField, order := HandleSort(sortBy);
    }

    /** The Filters button. */
    method ToggleFilters()
      modifies this
      ensures showFilters == !old(showFilters)
      ensures searchQuery == old(searchQuery) && sortBy == old(sortBy) && sortOrder == old(sortOrder)
      ensures category == old(category)
    {
      showFilters := !showFilters;
    }

    /** A different category is selected while the bar is on screen: the new `category` prop
        arrives, and the query, the sort field and order and the filter row stay as they were. */
    method ChangeCategory(category: Category)
      modifies this
      ensures this.category == category
      ensures searchQuery == old(searchQuery) && sortBy == old(sortBy) && sortOrder == old(sortOrder)
      ensures showFilters == old(showFilters)
    {
      this.category := category;
    }

    /** The filter row is rendered: it is open and the category has filters. */
    predicate FilterRowShown()
      reads this
      ensures FilterRowShown() <==> showFilters && category in {Business, Jobs, RealEstate}
    {
      showFilters && FilterOptions(category).Some?
    }
  }

  /** Opening the filter row shows it exactly for the three categories that have filters. */
  method OpenFilterRow(category: Category) returns (shown: bool)
    ensures shown <==> category in {Business, Jobs, RealEstate}
  {
    var bar := new SearchFilter(category);
    bar.ToggleFilters();
    shown := bar.FilterRowShown();
  }

  /** Sort the businesses by rating and search them, then switch to the news: the bar still
      holds the business sort field and the old query, and its filter row (open for the
      businesses) stays open though the news have no filters to show. */
  method StateSurvivesCategorySwitch() returns (sortField: string, order: Order, query: string, open: bool, shown: bool)
    ensures sortField == "rating" && order == Desc && query == "coffee"
    ensures open && !shown
  {
    var bar := new SearchFilter(Business);
    var _ := bar.HandleSearch("coffee");
    var _, _ := bar.HandleSort("rating");
    bar.ToggleFilters();
    bar.ChangeCategory(News);
    sortField, order, query, open := bar.sortBy, bar.sortOrder, bar.searchQuery, bar.showFilters;
    shown := bar.FilterRowShown();
  }
}
