/** The three query handlers of the application view: free-text search, filter directives and
    the comparator sort, each over the records of the current category. */
module Query {
  import opened Values
  import opened Seqs
  import opened Content

  // ===== Search =====

  /** The text of a string field, "" when it is absent. */
  function Text(r: Record, f: string): string
  {
    if f in r && r[f].Str? then r[f].s else ""
  }

  /** `item[f] && item[f].toLowerCase().includes(q)`. */
  predicate FieldMatches(r: Record, f: string, q: string)
  {
    FieldTruthy(r, f) && Contains(Lower(Text(r, f)), q)
  }

  /** The per-item test of the search, with `q` the lower-cased query: a record with a title is
      matched on title, description or summary; otherwise one with a name on name, bio or
      description; a record with neither is never matched. */
  predicate Matches(r: Record, q: string)
    ensures Matches(r, q) ==> FieldTruthy(r, "title") || FieldTruthy(r, "name")
    ensures Matches(r, q) ==>
      || FieldMatches(r, "title", q) || FieldMatches(r, "name", q) || FieldMatches(r, "description", q)
      || FieldMatches(r, "summary", q) || FieldMatches(r, "bio", q)
  {
    if FieldTruthy(r, "title") then
      FieldMatches(r, "title", q) || FieldMatches(r, "description", q) || FieldMatches(r, "summary", q)
    else if FieldTruthy(r, "name") then
      FieldMatches(r, "name", q) || FieldMatches(r, "bio", q) || FieldMatches(r, "description", q)
    else
      false
  }

  /** The records `handleSearch(query)` shows: all of them for a blank query, otherwise, in their
      order, every record that matches the lower-cased (untrimmed) query, and no other. */
  function Search(items: seq<Record>, query: string): (r: seq<Record>)
    requires forall x | x in items :: TextFieldsAreStrings(x)
    ensures IsSubsequence(r, items)
    ensures IsBlank(query) ==> r == items
    ensures !IsBlank(query) ==> forall x | x in r :: Matches(x, Lower(query))
    ensures !IsBlank(query) ==>
      forall x | x in items && Matches(x, Lower(query)) :: multiset(r)[x] == multiset(items)[x]
  {
    if IsBlank(query) then
      SubsequenceRefl(items);
      items
    else
      SelectCounts(items, x => Matches(x, Lower(query)));
      Select(items, x => Matches(x, Lower(query)))
  }

  /** A query typed as a full-width (ideographic) space is blank: `trim` removes it, so the
      whole content is shown. */
  lemma IdeographicSpaceShowsEverything(items: seq<Record>)
    requires forall x | x in items :: TextFieldsAreStrings(x)
    ensures Search(items, "\U{3000}") == items
  {
  }

  /** A record with neither a title nor a name is never found (real-estate listings, say). */
  lemma UntitledUnnamedNeverFound(items: seq<Record>, query: string)
    requires forall x | x in items :: TextFieldsAreStrings(x)
    requires forall x | x in items :: !FieldTruthy(x, "title") && !FieldTruthy(x, "name")
    requires !IsBlank(query)
    ensures Search(items, query) == []
  {
    SelectNone(items, x => Matches(x, Lower(query)));
  }

  lemma ContainsInfix(a: string, b: string, c: string)
    ensures Contains(a + b + c, b)
  {
    assert (a + b + c)[|a|..] == b + c;
  }

  /** Searching the news for the (non-blank) name of the location finds every item, since both
      titles name it. */
  lemma SearchNewsByLocation(location: string, iso: int -> string)
    requires !IsBlank(location)
    ensures Search(NewsItems(location, iso), location) == NewsItems(location, iso)
  {
    var items := NewsItems(location, iso);
    var q := Lower(location);
    NamedTitleMatches(items[0], "Local ", location, " Council Approves New Community Center");
    NamedTitleMatches(items[1], "", location, " School District Receives State Recognition");
    SelectAll(items, x => Matches(x, q));
  }

  /** A record whose title is `a + location + b` is found by searching for the location. */
  lemma NamedTitleMatches(r: Record, a: string, location: string, b: string)
    requires location != []
    requires "title" in r && r["title"] == Str(a + location + b)
    ensures Matches(r, Lower(location))
  {
    LowerConcat(a + location, b);
    LowerConcat(a, location);
    ContainsInfix(Lower(a), Lower(location), Lower(b));
  }

  // ===== Filter =====

  /** One entry `[key, value]` of the filter object. */
  datatype Directive = Directive(key: string, value: string)

  /** `value && value !== 'all'`: only such entries filter anything. */
  predicate Active(d: Directive)
  {
    d.value != "" && d.value != "all"
  }

  /** `item[f] >= bound`, false when the field is undefined or either side is NaN. */
  predicate AtLeast(r: Record, f: string, bound: Option<real>)
  {
    f in r && bound.Some? && ToNumeric(r[f]).Some? && ToNumeric(r[f]).value >= bound.value
  }

  /** `item[f] <= bound`, false when the field is undefined or either side is NaN. */
  predicate AtMost(r: Record, f: string, bound: Option<real>)
  {
    f in r && bound.Some? && ToNumeric(r[f]).Some? && ToNumeric(r[f]).value <= bound.value
  }

  /** The upper bound of a price range, undefined when there is no second piece. */
  function UpperBound(pieces: seq<string>): Option<real>
  {
    if |pieces| > 1 then ToNumber(pieces[1]) else None
  }

  /** The test one active entry applies to each record. */
  predicate Holds(r: Record, d: Directive)
    ensures Holds(r, d) ==> (if d.key == "priceRange" then "price" else d.key) in r
  {
    if d.key == "rating" && '+' in d.value then
      AtLeast(r, "rating", ParseFloat(RemoveFirst(d.value, '+')))
    else if d.key == "priceRange" then
      var pieces := Split(d.value, '-');
      var min, max := ToNumber(pieces[0]), UpperBound(pieces);
      if max.Some? && max.value != 0.0 then AtLeast(r, "price", min) && AtMost(r, "price", max)
      else AtLeast(r, "price", min)
    else if d.key == "bedrooms" then
      AtLeast(r, "bedrooms", ParseInt(d.value))
    else
      d.key in r && r[d.key] == Str(d.value)
  }

  predicate Satisfies(r: Record, d: Directive)
  {
    Active(d) ==> Holds(r, d)
  }

  predicate SatisfiesAll(r: Record, filters: seq<Directive>)
  {
    forall i | 0 <= i < |filters| :: Satisfies(r, filters[i])
  }

  /** What the filter handler shows: the records that satisfy every active entry, in order. */
  function Filtered(items: seq<Record>, filters: seq<Directive>): seq<Record>
  {
    Select(items, x => SatisfiesAll(x, filters))
  }

  /** The filter's result is the order-preserving subsequence of the content made of the records
      that satisfy every active entry, each kept as often as it occurs. */
  lemma FilteredIsSelection(items: seq<Record>, filters: seq<Directive>)
    ensures IsSubsequence(Filtered(items, filters), items)
    ensures forall x | x in Filtered(items, filters) :: forall d | d in filters && Active(d) :: Holds(x, d)
    ensures forall x | x in items && SatisfiesAll(x, filters) ::
      multiset(Filtered(items, filters))[x] == multiset(items)[x]
  {
    SelectCounts(items, x => SatisfiesAll(x, filters));
    forall x, d | x in Filtered(items, filters) && d in filters && Active(d) ensures Holds(x, d) {
      var i :| 0 <= i < |filters| && filters[i] == d;
    }
  }

  /** One pass of the loop: `filtered.filter(item => ...)` for a single entry. */
  function KeepHolding(items: seq<Record>, d: Directive): seq<Record>
  {
    Select(items, x => Holds(x, d))
  }

  /** `handleFilter(filters)`: starting from all the content, each active entry narrows it. */
  method ApplyFilters(items: seq<Record>, filters: seq<Directive>) returns (filtered: seq<Record>)
    ensures filtered == Filtered(items, filters)
  {
    filtered := items;
    InactiveFiltersKeepAll(items, filters[..0]);
    for i := 0 to |filters|
      invariant filtered == Filtered(items, filters[..i])
    {
      var d := filters[i];
      if Active(d) {
        filtered := KeepHolding(filtered, d);
      }
      FilterStep(items, filters[..i], d);
      assert filters[..i + 1] == filters[..i] + [d];
    }
    assert filters[..|filters|] == filters;
  }

  lemma SatisfiesAllAppend(r: Record, a: seq<Directive>, b: seq<Directive>)
    ensures SatisfiesAll(r, a + b) == (SatisfiesAll(r, a) && SatisfiesAll(r, b))
  {
    if SatisfiesAll(r, a) && SatisfiesAll(r, b) {
      forall i | 0 <= i < |a + b| ensures Satisfies(r, (a + b)[i]) {
        if i >= |a| { assert (a + b)[i] == b[i - |a|]; }
      }
    }
    if SatisfiesAll(r, a + b) {
      forall i | 0 <= i < |b| ensures Satisfies(r, b[i]) { assert (a + b)[|a| + i] == b[i]; }
      forall i | 0 <= i < |a| ensures Satisfies(r, a[i]) { assert (a + b)[i] == a[i]; }
    }
  }

  /** Adding one entry to the filter object narrows the result by that entry alone. */
  lemma {:induction false} FilterStep(items: seq<Record>, filters: seq<Directive>, d: Directive)
    ensures Filtered(items, filters + [d])
         == if Active(d) then KeepHolding(Filtered(items, filters), d) else Filtered(items, filters)
  {
    if items != [] {
      FilterStep(items[1..], filters, d);
      var x, rest := items[0], Filtered(items[1..], filters);
      SatisfiesAllAppend(x, filters, [d]);
      assert [d][0] == d;
      if SatisfiesAll(x, filters) {
        assert Filtered(items, filters) == [x] + rest;
        assert ([x] + rest)[1..] == rest;
      }
    }
  }

  /** Entries combine with AND: filtering by `a + b` is filtering by `a`, then by `b`. */
  lemma {:induction false} FilteredAppend(items: seq<Record>, a: seq<Directive>, b: seq<Directive>)
    ensures Filtered(items, a + b) == Filtered(Filtered(items, a), b)
  {
    if items != [] {
      FilteredAppend(items[1..], a, b);
      var x, rest := items[0], Filtered(items[1..], a);
      SatisfiesAllAppend(x, a, b);
      if SatisfiesAll(x, a) {
        assert Filtered(items, a) == [x] + rest;
        assert ([x] + rest)[1..] == rest;
      }
    }
  }

  /** With no active entry (an empty object, or every value `'all'` or empty) all the content
      is shown. */
  lemma InactiveFiltersKeepAll(items: seq<Record>, filters: seq<Directive>)
    requires forall i | 0 <= i < |filters| :: !Active(filters[i])
    ensures Filtered(items, filters) == items
  {
    SelectAll(items, x => SatisfiesAll(x, filters));
  }

  /** `rating: 'N+'` keeps exactly the records whose rating is at least N. */
  lemma RatingAtLeast(r: Record, n: string)
    requires n != [] && AllDigits(n)
    ensures Holds(r, Directive("rating", n + "+"))
        <==> "rating" in r && ToNumeric(r["rating"]).Some?
             && ToNumeric(r["rating"]).value >= DigitsValue(n) as real
  {
    assert (n + "+")[|n|] == '+';
    RemoveFirstAfterDigits(n);
    ParseDigits(n);
  }

  lemma {:induction false} RemoveFirstAfterDigits(n: string)
    requires AllDigits(n)
    ensures RemoveFirst(n + "+", '+') == n
  {
    if n != [] {
      assert (n + "+")[1..] == n[1..] + "+";
      RemoveFirstAfterDigits(n[1..]);
      assert n == [n[0]] + n[1..];
    } else {
      assert n + "+" == "+";
    }
  }

  /** `priceRange: 'a-b'` with b > 0 keeps exactly the records priced from a to b inclusive. */
  lemma PriceRangeInclusive(r: Record, a: string, b: string)
    requires a != [] && AllDigits(a) && b != [] && AllDigits(b)
    requires DigitsValue(b) > 0
    ensures Holds(r, Directive("priceRange", a + "-" + b))
        <==> "price" in r && ToNumeric(r["price"]).Some?
             && DigitsValue(a) as real <= ToNumeric(r["price"]).value <= DigitsValue(b) as real
  {
    assert !IsDigit('-');
    SplitTwo(a, '-', b);
    assert a + "-" + b == a + ['-'] + b;
    ParseDigits(a);
    ParseDigits(b);
  }

  /** `priceRange: '600000+'` keeps nothing: `Number('600000+')` is NaN. */
  lemma OpenEndedPriceKeepsNothing(items: seq<Record>)
    ensures Filtered(items, [Directive("priceRange", "600000+")]) == []
  {
    var d := Directive("priceRange", "600000+");
    forall x | x in items ensures !SatisfiesAll(x, [d]) {
      OpenEndedPriceFailsEach(x);
      assert [d][0] == d;
    }
    SelectNone(items, x => SatisfiesAll(x, [d]));
  }

  lemma OpenEndedPriceFailsEach(r: Record)
    ensures !Holds(r, Directive("priceRange", "600000+"))
  {
    OpenEndedPriceIsNaN();
  }

  /** Both ends of `'600000+'.split('-').map(Number)`: NaN and `undefined`. */
  lemma OpenEndedPriceIsNaN()
    ensures Split("600000+", '-') == ["600000+"]
    ensures ToNumber("600000+") == None
  {
    SplitNone("600000+", '-');
    OpenEndedPriceDigits();
    assert !IsWhiteSpace("600000+"[0]);
  }

  lemma OpenEndedPriceDigits()
    ensures DigitPrefix("600000+") == "600000"
  {
    DigitPrefixOfDigits("600000", "+");
    assert "600000" + "+" == "600000+";
  }

  /** `bedrooms: 'N'` keeps exactly the records with at least N bedrooms. */
  lemma BedroomsAtLeast(r: Record, n: string)
    requires n != [] && AllDigits(n) && n != "all"
    ensures Holds(r, Directive("bedrooms", n))
        <==> "bedrooms" in r && ToNumeric(r["bedrooms"]).Some?
             && ToNumeric(r["bedrooms"]).value >= DigitsValue(n) as real
  {
    ParseDigits(n);
  }

  /** Any other key is matched by strict equality with the string value. */
  lemma OtherKeysStrictEquality(r: Record, d: Directive)
    requires d.key != "priceRange" && d.key != "bedrooms"
    requires d.key == "rating" ==> '+' !in d.value
    ensures Holds(r, d) <==> d.key in r && r[d.key] == Str(d.value)
  {
  }

  // ===== Sort =====

  datatype Order = Asc | Desc

  predicate IsNum(r: Record, f: string)
  {
    f in r && r[f].Num?
  }

  /** `item[f]`, None standing for `undefined`. */
  function Get(r: Record, f: string): Option<Value>
  {
    if f in r then Some(r[f]) else None
  }

  /** The number an operand of `>` becomes when the other operand is not a string. */
  function NumericOperand(x: Option<Value>): Option<real>
  {
    if x.None? then None else ToNumeric(x.value)
  }

  /** JavaScript `x > y`: two strings by character order, anything else numerically, false
      whenever a side converts to NaN (`undefined` does). */
  predicate Greater(x: Option<Value>, y: Option<Value>)
    ensures Greater(x, y) ==> x.Some? && y.Some?
    ensures x.Some? && y.Some? && x.value.Num? && y.value.Num? ==> (Greater(x, y) <==> x.value.n > y.value.n)
  {
    if x.Some? && y.Some? && x.value.Str? && y.value.Str? then StrLess(y.value.s, x.value.s)
    else
      var nx, ny := NumericOperand(x), NumericOperand(y);
      nx.Some? && ny.Some? && nx.value > ny.value
  }

  /** The comparator of `handleSort(sortBy, order)`. When `a[sortBy]` is a string both sides are
      lower-cased, which throws unless `b[sortBy]` is a string too. It never answers 0. */
  function Comparator(a: Record, b: Record, f: string, order: Order): (c: int)
    requires IsStr(a, f) ==> IsStr(b, f)
    ensures c == 1 || c == -1
    ensures IsStr(a, f) == IsStr(b, f) ==> (c == 1 <==> Before(b, a, f, order))
  {
    var (x, y) := if IsStr(a, f) then (Some(Str(Lower(a[f].s))), Some(Str(Lower(b[f].s))))
                  else (Get(a, f), Get(b, f));
    match order
    case Asc => if Greater(x, y) then 1 else -1
    case Desc => if Greater(y, x) then 1 else -1
  }

  /** No generated record has the default sort field `date`, so sorting generated content by it
      gets -1 from the comparator for every pair, whichever order is asked for. */
  lemma DateComparatorConstant(category: Category, location: string, iso: int -> string, order: Order)
    ensures forall a, b | a in GenerateMockData(category, location, iso) && b in GenerateMockData(category, location, iso)
      :: Comparator(a, b, "date", order) == -1
  {
  }

  /** The value a record is sorted by: `item[f]`, lower-cased when it is a string. */
  function SortKey(r: Record, f: string): Option<Value>
  {
    if IsStr(r, f) then Some(Str(Lower(r[f].s))) else Get(r, f)
  }

  /** `x` belongs strictly before `y` in the requested order. */
  predicate Before(x: Record, y: Record, f: string, order: Order)
  {
    match order
    case Asc => Greater(SortKey(y, f), SortKey(x, f))
    case Desc => Greater(SortKey(x, f), SortKey(y, f))
  }

  /** Every record's sort field is a string, or none is: the comparator never throws. */
  predicate UniformKey(items: seq<Record>, f: string)
  {
    (forall x | x in items :: IsStr(x, f)) || (forall x | x in items :: !IsStr(x, f))
  }

  /** On records of one shape every field but the optional ones is uniform. */
  lemma SameShapeUniform(items: seq<Record>, f: string)
    requires SameShape(items) && f !in OptionalFields
    ensures UniformKey(items, f)
  {
    if x :| x in items && IsStr(x, f) {
      assert forall y | y in items :: IsStr(y, f) == IsStr(x, f);
    }
  }

  /** The sort field is all strings or all numbers, different records have different keys
      (strings compared after lower-casing), and no record occurs twice. */
  predicate Comparable(items: seq<Record>, f: string)
  {
    && ((forall x | x in items :: IsStr(x, f)) || (forall x | x in items :: IsNum(x, f)))
    && (forall x, y | x in items && y in items && x != y :: SortKey(x, f) != SortKey(y, f))
    && (forall x | x in items :: multiset(items)[x] == 1)
  }

  /** Strictly increasing (Asc) or strictly decreasing (Desc) keys. */
  predicate Ordered(s: seq<Record>, f: string, order: Order)
  {
    forall k, l {:trigger Before(s[k], s[l], f, order)} | 0 <= k < l < |s| :: Before(s[k], s[l], f, order)
  }

  /** Records of one kind (string keys or numeric keys). */
  predicate SameKind(x: Record, y: Record, f: string)
  {
    (IsStr(x, f) && IsStr(y, f)) || (IsNum(x, f) && IsNum(y, f))
  }

  lemma BeforeTransitive(x: Record, y: Record, z: Record, f: string, order: Order)
    requires SameKind(x, y, f) && SameKind(y, z, f)
    requires Before(x, y, f, order) && Before(y, z, f, order)
    ensures Before(x, z, f, order)
  {
    if IsStr(x, f) {
      var kx, ky, kz := Lower(x[f].s), Lower(y[f].s), Lower(z[f].s);
      match order
      case Asc => StrLessTransitive(kx, ky, kz);
      case Desc => StrLessTransitive(kz, ky, kx);
    }
  }

  lemma BeforeTotal(x: Record, y: Record, f: string, order: Order)
    requires SameKind(x, y, f) && SortKey(x, f) != SortKey(y, f)
    ensures Before(x, y, f, order) || Before(y, x, f, order)
  {
    if IsStr(x, f) {
      StrLessTotal(Lower(x[f].s), Lower(y[f].s));
    }
  }

  /** No two records come before each other, whatever their keys. */
  lemma BeforeAsymmetric(x: Record, y: Record, f: string, order: Order)
    requires Before(x, y, f, order)
    ensures !Before(y, x, f, order)
  {
    if IsStr(x, f) && IsStr(y, f) {
      match order
      case Asc => StrLessAsymmetric(Lower(x[f].s), Lower(y[f].s));
      case Desc => StrLessAsymmetric(Lower(y[f].s), Lower(x[f].s));
    }
  }

  /** A strictly ordered arrangement of given records is unique: two orderings of the same
      records by the same field and order are equal. */
  lemma {:induction false} OrderedUnique(s: seq<Record>, t: seq<Record>, f: string, order: Order)
    requires multiset(s) == multiset(t)
    requires Ordered(s, f, order) && Ordered(t, f, order)
    ensures s == t
    decreases |s|
  {
    assert |s| == |multiset(s)| == |multiset(t)| == |t|;
    if s != [] {
      SameHead(s, t, f, order);
      DropHead(s);
      DropHead(t);
      OrderedTail(s, f, order);
      OrderedTail(t, f, order);
      OrderedUnique(s[1..], t[1..], f, order);
      assert s == [s[0]] + s[1..] && t == [t[0]] + t[1..];
    }
  }

  /** Two strict orderings of the same records start with the same record. */
  lemma SameHead(s: seq<Record>, t: seq<Record>, f: string, order: Order)
    requires s != [] && t != [] && multiset(s) == multiset(t)
    requires Ordered(s, f, order) && Ordered(t, f, order)
    ensures s[0] == t[0]
  {
    if s[0] != t[0] {
      assert t[0] in multiset(s) && s[0] in multiset(t);
      var k :| 0 <= k < |s| && s[k] == t[0];
      var l :| 0 <= l < |t| && t[l] == s[0];
      assert Before(s[0], s[k], f, order);
      assert Before(t[0], t[l], f, order);
      BeforeAsymmetric(s[0], s[k], f, order);
      assert false;
    }
  }

  lemma DropHead(s: seq<Record>)
    requires s != []
    ensures multiset(s[1..]) == multiset(s) - multiset{s[0]}
  {
    assert s == [s[0]] + s[1..];
    assert multiset(s) == multiset{s[0]} + multiset(s[1..]);
  }

  lemma OrderedTail(s: seq<Record>, f: string, order: Order)
    requires s != [] && Ordered(s, f, order)
    ensures Ordered(s[1..], f, order)
  {
    forall k, l | 0 <= k < l < |s| - 1 ensures Before(s[1..][k], s[1..][l], f, order) {
      assert Before(s[k + 1], s[l + 1], f, order);
    }
  }

  /** Sorting the same records by the same field ascending and descending gives one sequence
      and its reverse. */
  lemma AscDescReverse(up: seq<Record>, down: seq<Record>, f: string)
    requires multiset(up) == multiset(down)
    requires Ordered(up, f, Asc) && Ordered(down, f, Desc)
    ensures down == Reversed(up)
  {
    var r := Reversed(up);
    assert Ordered(r, f, Desc) by {
      forall k, l | 0 <= k < l < |r| ensures Before(r[k], r[l], f, Desc) {
        assert Before(up[|up| - 1 - l], up[|up| - 1 - k], f, Asc);
      }
    }
    OrderedUnique(r, down, f, Desc);
  }

  /** In a sequence where no record occurs twice, different positions hold different records. */
  lemma DistinctPositions(s: seq<Record>, i: int, j: int)
    requires 0 <= i < j < |s|
    requires forall x | x in s :: multiset(s)[x] == 1
    ensures s[i] != s[j]
  {
    var x := s[i];
    assert s == s[..j] + s[j..];
    assert x in s && x in s[..j] && s[j] in s[j..];
    assert multiset(s)[x] == multiset(s[..j])[x] + multiset(s[j..])[x] == 1;
    assert multiset(s[..j])[x] >= 1;
  }

  /** In a rearrangement of records whose sort field is uniformly a string or uniformly not,
      any two positions agree on it, so the comparator can be applied to them. */
  lemma UniformPair(s: seq<Record>, t: seq<Record>, f: string, p: int, q: int)
    requires multiset(s) == multiset(t) && UniformKey(t, f)
    requires 0 <= p < |s| && 0 <= q < |s|
    ensures IsStr(s[p], f) == IsStr(s[q], f)
  {
    assert s[p] in s && s[q] in s;
    assert s[p] in multiset(t) && s[q] in multiset(t);
  }

  /** Two positions of a rearrangement of comparable records hold records of one kind with
      different keys. */
  lemma PermutedPair(s: seq<Record>, items: seq<Record>, f: string, p: int, q: int)
    requires multiset(s) == multiset(items) && Comparable(items, f)
    requires 0 <= p < q < |s|
    ensures SameKind(s[p], s[q], f) && SortKey(s[p], f) != SortKey(s[q], f)
  {
    assert forall x | x in s :: x in multiset(items);
    assert s[p] in s && s[q] in s;
    assert s[p] in multiset(items) && s[q] in multiset(items);
    DistinctPositions(s, p, q);
  }

  /** The first `i` records are in order. */
  predicate OrderedPrefix(s: seq<Record>, i: int, f: string, order: Order)
    requires 0 <= i <= |s|
  {
    forall k, l {:trigger Before(s[k], s[l], f, order)} | 0 <= k < l < i :: Before(s[k], s[l], f, order)
  }

  /** Midway through inserting the record at `j` into the ordered records `0..i`: leaving it out,
      `0..i` is in order, and it belongs before everything after it. */
  predicate Inserting(s: seq<Record>, j: int, i: int, f: string, order: Order)
    requires 0 <= j <= i < |s|
  {
    && (forall k, l {:trigger Before(s[k], s[l], f, order)} | 0 <= k < l <= i && k != j && l != j :: Before(s[k], s[l], f, order))
    && (forall l {:trigger Before(s[j], s[l], f, order)} | j < l <= i :: Before(s[j], s[l], f, order))
  }

  /** Swapping the record being inserted with the one before it, which it belongs before. */
  lemma SwapStep(s: seq<Record>, j: int, i: int, f: string, order: Order)
    requires 0 < j <= i < |s|
    requires Inserting(s, j, i, f, order) && Before(s[j], s[j - 1], f, order)
    ensures Inserting(s[j - 1 := s[j]][j := s[j - 1]], j - 1, i, f, order)
  {
  }

  /** Exchanging two records rearranges the sequence. */
  lemma SwapPermutes(s: seq<Record>, p: int, q: int)
    requires 0 <= p < q < |s|
    ensures multiset(s[p := s[q]][q := s[p]]) == multiset(s)
  {
  }

  /** The insertion stops at the front, or behind a record that belongs before it. */
  lemma InsertDone(s: seq<Record>, items: seq<Record>, j: int, i: int, f: string, order: Order)
    requires 0 <= j <= i < |s|
    requires multiset(s) == multiset(items) && Comparable(items, f)
    requires Inserting(s, j, i, f, order)
    requires j > 0 ==> !Before(s[j], s[j - 1], f, order)
    ensures OrderedPrefix(s, i + 1, f, order)
  {
    if j > 0 {
      PermutedPair(s, items, f, j - 1, j);
      BeforeTotal(s[j - 1], s[j], f, order);
      forall k | 0 <= k < j - 1 ensures Before(s[k], s[j], f, order) {
        PermutedPair(s, items, f, k, j - 1);
        BeforeTransitive(s[k], s[j - 1], s[j], f, order);
      }
    }
  }

  /** `[...items].sort(comparator)`: the records are copied into a fresh array and sorted in
      place. The engine's algorithm is modelled as an insertion sort. */
  method SortedCopy(items: seq<Record>, f: string, order: Order) returns (sorted: seq<Record>)
    requires UniformKey(items, f)
    ensures multiset(sorted) == multiset(items)
    ensures Comparable(items, f) ==> Ordered(sorted, f, order)
  {
    if items == [] {
      return [];
    }
    var a := new Record[|items|](i requires 0 <= i < |items| => items[i]);
    assert a[..] == items;
    var i := 1;
    while i < a.Length
      invariant 1 <= i <= a.Length
      invariant multiset(a[..]) == multiset(items)
      invariant Comparable(items, f) ==> OrderedPrefix(a[..], i, f, order)
    {
      Insert(a, i, items, f, order);
      i := i + 1;
    }
    sorted := a[..];
  }

  /** One round of the insertion sort: the record at `i` moves down past every record it belongs
      before, so that the first `i + 1` records are in order. */
  method Insert(a: array<Record>, i: int, ghost items: seq<Record>, f: string, order: Order)
    requires 1 <= i < a.Length
    requires multiset(a[..]) == multiset(items) && UniformKey(items, f)
    requires Comparable(items, f) ==> OrderedPrefix(a[..], i, f, order)
    modifies a
    ensures multiset(a[..]) == multiset(items)
    ensures Comparable(items, f) ==> OrderedPrefix(a[..], i + 1, f, order)
  {
    ghost var comparable := Comparable(items, f);
    var j, stop := i, false;
    while j > 0 && !stop
      invariant 0 <= j <= i
      invariant multiset(a[..]) == multiset(items)
      invariant comparable ==> Inserting(a[..], j, i, f, order)
      invariant stop ==> j > 0 && !Before(a[j], a[j - 1], f, order)
      decreases j, !stop
    {
      UniformPair(a[..], items, f, j - 1, j);
      if Comparator(a[j - 1], a[j], f, order) > 0 {
        SwapDown(a, j, i, f, order, comparable);
        j := j - 1;
      } else {
        stop := true;
      }
    }
    if comparable {
      InsertDone(a[..], items, j, i, f, order);
    }
  }

  /** Moves the record being inserted one place down, past a record it belongs before. */
  method SwapDown(a: array<Record>, j: int, i: int, f: string, order: Order, ghost ordered: bool)
    requires 0 < j <= i < a.Length
    requires ordered ==> Inserting(a[..], j, i, f, order) && Before(a[j], a[j - 1], f, order)
    modifies a
    ensures a[..] == old(a[..])[j - 1 := old(a[j])][j := old(a[j - 1])]
    ensures multiset(a[..]) == multiset(old(a[..]))
    ensures ordered ==> Inserting(a[..], j - 1, i, f, order)
  {
    ghost var s := a[..];
    if ordered {
      SwapStep(s, j, i, f, order);
    }
    SwapPermutes(s, j - 1, j);
    a[j - 1], a[j] := a[j], a[j - 1];
    assert a[..] == s[j - 1 := s[j]][j := s[j - 1]];
  }
}
