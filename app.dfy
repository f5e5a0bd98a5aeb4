/** The application view: the five pieces of state the handlers update, and the handlers
    themselves. Sign-in state and the notifications the handlers raise are not modelled; the
    one-second delay of a category load is the gap between BeginLoad and CompleteLoad. */
module AppView {
  import opened Values
  import opened Seqs
  import opened Content
  import opened Query
  import opened SearchFilterPanel

  /** A scheduled completion of a category selection: the category it was scheduled for and the
      city of the location current at that moment, which the callback has captured. */
  datatype PendingLoad = PendingLoad(category: Category, city: string)

  class App {
    var currentLocation: Option<Location>
    var selectedCategory: Option<Category>
    var contentData: seq<Record>
    var filteredData: seq<Record>
    var contentLoading: bool

    /** A category is only ever chosen once a location is, every record on hand can be
        searched (its text fields hold strings), and the content and the view each hold records
        of one shape, since each comes from a single generated list. */
    ghost predicate Valid()
      reads this
    {
      && (selectedCategory.Some? ==> currentLocation.Some?)
      && (forall r | r in contentData :: TextFieldsAreStrings(r))
      && (forall r | r in filteredData :: TextFieldsAreStrings(r))
      && SameShape(contentData) && SameShape(filteredData)
    }

    /** The state on first render: no location, no category, nothing loaded. */
    constructor ()
      ensures Valid()
      ensures currentLocation == None && selectedCategory == None
      ensures contentData == [] && filteredData == [] && !contentLoading
    {
      currentLocation := None;
      selectedCategory := None;
      contentData := [];
      filteredData := [];
      contentLoading := false;
    }

    /** `handleLocationChange(zipCode)`. A known code switches to its location, drops the
        category and empties the content; the view (`filteredData`) and the loading flag are
        left as they were. An unknown code changes nothing. */
    method HandleLocationChange(zip: string)
      requires Valid()
      modifies this
      ensures Valid()
      ensures zip in AdvertisedZips ==>
        && currentLocation == LookupZip(zip) && currentLocation.value.zipCode == zip
        && selectedCategory == None && contentData == []
        && filteredData == old(filteredData) && contentLoading == old(contentLoading)
      ensures zip !in AdvertisedZips ==> unchanged(this)
    {
      var locationData := LookupZip(zip);
      if locationData.Some? {
        currentLocation := locationData;
        selectedCategory := None;
        contentData := [];
      }
    }

    /** The synchronous part of `handleCategorySelect(category)`. Without a location nothing
        changes and nothing is scheduled; otherwise the category is selected, loading starts,
        and a completion is scheduled with the current city. */
    method BeginLoad(category: Category) returns (pending: Option<PendingLoad>)
      requires Valid()
      modifies this
      ensures Valid()
      ensures old(currentLocation).None? ==> pending.None? && unchanged(this)
      ensures old(currentLocation).Some? ==>
        && pending == Some(PendingLoad(category, old(currentLocation).value.city))
        && selectedCategory == Some(category) && contentLoading
        && currentLocation == old(currentLocation)
        && contentData == old(contentData) && filteredData == old(filteredData)
    {
      if currentLocation.None? {
        return None;
      }
      selectedCategory := Some(category);
      contentLoading := true;
      pending := Some(PendingLoad(category, currentLocation.value.city));
    }

    /** The scheduled callback. It does not look at the current selection or location: whatever
        was chosen since, the content becomes that of the captured category and city. */
    method CompleteLoad(p: PendingLoad, iso: int -> string)
      requires Valid()
      modifies this
      ensures Valid()
      ensures contentData == filteredData == GenerateMockData(p.category, p.city, iso)
      ensures !contentLoading
      ensures currentLocation == old(currentLocation) && selectedCategory == old(selectedCategory)
    {
      var data := GenerateMockData(p.category, p.city, iso);
      GeneratedSameShape(p.category, p.city, iso);
      contentData := data;
      filteredData := data;
      contentLoading := false;
    }

    /** `handleSearch(query)`: the view becomes the search result over all the content. */
    method HandleSearch(query: string)
      requires Valid()
      modifies this
      ensures Valid()
      ensures filteredData == Search(contentData, query)
      ensures IsBlank(query) ==> filteredData == contentData
      ensures contentData == old(contentData) && currentLocation == old(currentLocation)
      ensures selectedCategory == old(selectedCategory) && contentLoading == old(contentLoading)
    {
      var result := Search(contentData, query);
      SubsequenceMultiset(result, contentData);
      assert forall r | r in result :: r in multiset(contentData);
      filteredData := result;
    }

    /** `handleSort(sortBy, order)`: the view is re-sorted. The records stay the same; when their
        keys are comparable they end up in the requested order. */
    method HandleSort(field: string, order: Order)
      requires Valid()
      requires UniformKey(filteredData, field)
      modifies this
      ensures Valid()
      ensures multiset(filteredData) == multiset(old(filteredData))
      ensures Comparable(old(filteredData), field) ==> Ordered(filteredData, field, order)
      ensures contentData == old(contentData) && currentLocation == old(currentLocation)
      ensures selectedCategory == old(selectedCategory) && contentLoading == old(contentLoading)
    {
      var sorted := SortedCopy(filteredData, field, order);
      assert forall r | r in sorted :: r in multiset(filteredData);
      filteredData := sorted;
    }

    /** `handleFilter(filters)`: the view becomes all the content narrowed by every active entry;
        the previous view plays no part. */
    method HandleFilter(filters: seq<Directive>)
      requires Valid()
      modifies this
      ensures Valid()
      ensures filteredData == Filtered(contentData, filters)
      ensures contentData == old(contentData) && currentLocation == old(currentLocation)
      ensures selectedCategory == old(selectedCategory) && contentLoading == old(contentLoading)
    {
      var result := ApplyFilters(contentData, filters);
      SubsequenceMultiset(result, contentData);
      assert forall r | r in result :: r in multiset(contentData);
      filteredData := result;
    }
  }

  /** In every reachable state the view can be sorted by any field but the optional ones
      without the comparator throwing, whatever search, filter, sort or pending load came
      before; in particular by every field the panel offers for any category. */
  lemma ViewSortable(app: App, field: string)
    requires app.Valid()
    requires field !in OptionalFields
    ensures UniformKey(app.filteredData, field)
  {
    SameShapeUniform(app.filteredData, field);
  }

  /** Each field the panel offers, for whichever category is selected, meets the requirement of
      `HandleSort` on the current view. */
  lemma OfferedFieldSortable(app: App, category: Category, i: int)
    requires app.Valid()
    requires 0 <= i < |SortOptions(category)|
    ensures UniformKey(app.filteredData, SortOptions(category)[i].value)
  {
    assert SortOptions(category)[i] in SortOptions(category);
    ViewSortable(app, SortOptions(category)[i].value);
  }

  /** Search, sort by an offered field, filter and sort again: every call's requirement is met
      from the class invariant alone. */
  method SortAfterSearch(app: App, query: string, filters: seq<Directive>, category: Category, i: int)
    requires app.Valid()
    requires 0 <= i < |SortOptions(category)|
    modifies app
    ensures app.Valid()
    ensures multiset(app.filteredData) == multiset(Filtered(app.contentData, filters))
  {
    app.HandleSearch(query);
    OfferedFieldSortable(app, category, i);
    app.HandleSort(SortOptions(category)[i].value, Desc);
    app.HandleFilter(filters);
    OfferedFieldSortable(app, category, i);
    app.HandleSort(SortOptions(category)[i].value, Asc);
  }

  /** Two selections in quick succession whose loads complete in the opposite order: the
      earlier load lands last, so the view shows its content under the later category. */
  method StaleLoadScenario(iso: int -> string) returns (selected: Option<Category>, content: seq<Record>)
    ensures selected == Some(Sports)
    ensures content == GenerateMockData(News, "New York", iso) != GenerateMockData(Sports, "New York", iso)
  {
    var app := new App();
    app.HandleLocationChange("10001");
    var first := app.BeginLoad(News);
    var second := app.BeginLoad(Sports);
    app.CompleteLoad(second.value, iso);
    app.CompleteLoad(first.value, iso);
    MockDataCounts(News, "New York", iso);
    MockDataCounts(Sports, "New York", iso);
    selected, content := app.selectedCategory, app.contentData;
  }

  /** A location change while a load is pending: the load still completes with the old city,
      under the new location and with no category selected. */
  method StaleCityScenario(iso: int -> string) returns (location: Option<Location>, selected: Option<Category>, content: seq<Record>)
    ensures location.Some? && location.value.city == "Beverly Hills"
    ensures selected == None
    ensures content == GenerateMockData(News, "New York", iso)
  {
    var app := new App();
    app.HandleLocationChange("10001");
    var pending := app.BeginLoad(News);
    app.HandleLocationChange("90210");
    app.CompleteLoad(pending.value, iso);
    location, selected, content := app.currentLocation, app.selectedCategory, app.contentData;
  }
}
