/** The fixed data of the application: the ZIP-code directory and the synthetic content that
    stands in for a fetch, one fixed list of records per category. */
module Content {
  import opened Values

  /** The ten category tags. */
  datatype Category =
    | News | Sports | Business | RealEstate | Dating | Jobs | Forums | Coupons | Obituaries | Classifieds

  datatype Location = Location(zipCode: string, city: string, state: string, county: Option<string>)

  /** The five-entry ZIP directory. */
  const ZipTable: map<string, Location> := map[
    "10001" := Location("10001", "New York", "NY", Some("New York County")),
    "90210" := Location("90210", "Beverly Hills", "CA", Some("Los Angeles County")),
    "60601" := Location("60601", "Chicago", "IL", Some("Cook County")),
    "33101" := Location("33101", "Miami", "FL", Some("Miami-Dade County")),
    "78701" := Location("78701", "Austin", "TX", Some("Travis County"))
  ]

  /** The codes the "Location Not Found" notice tells the user are supported. */
  const AdvertisedZips: seq<string> := ["10001", "90210", "60601", "33101", "78701"]

  /** `mockLocationData[zipCode]`, None standing for `undefined`. */
  function LookupZip(zip: string): (r: Option<Location>)
    ensures r.Some? <==> zip in AdvertisedZips
    ensures r.Some? ==> r.value.zipCode == zip && r.value.county.Some?
  {
    if zip in ZipTable then Some(ZipTable[zip]) else None
  }

  const DayMs: int := 24 * 60 * 60 * 1000

  /** `generateMockData(category, location)`. Its records hold strings in the fields the search
      reads, and none has a top-level `date` field (the time stamps are `publishedAt`,
      `postedAt`, `createdAt`, `validUntil`, `dateOfBirth` and `dateOfDeath`). `iso(k)` stands for
      `new Date(Date.now() + k).toISOString()`: the clock is a parameter. The fallback
      `|| []` cannot be reached, since every tag has an entry. */
  function GenerateMockData(category: Category, location: string, iso: int -> string): (items: seq<Record>)
    ensures forall r | r in items :: TextFieldsAreStrings(r) && "date" !in r
  {
    match category
    case News => NewsItems(location, iso)
    case Sports => SportsItems(location, iso)
    case Business => BusinessListings(location, iso)
    case Jobs => JobListings(location, iso)
    case RealEstate => RealEstateListings(location, iso)
    case Forums => ForumPosts(location, iso)
    case Classifieds => ClassifiedAds(location, iso)
    case Dating => DatingProfiles(location, iso)
    case Coupons => CouponItems(location, iso)
    case Obituaries => ObituaryItems(location, iso)
  }

  function NewsItems(location: string, iso: int -> string): (items: seq<Record>)
    ensures forall r | r in items :: TextFieldsAreStrings(r) && "date" !in r
    ensures SameShape(items)
  {
    [
      map[
        "id" := Str("1"),
        "title" := Str("Local " + location + " Council Approves New Community Center"),
        "summary" := Str(CouncilSummary),
        "url" := Str("#"),
        "source" := Str(location + " Tribune"),
        "publishedAt" := Str(iso(0)),
        "category" := Str("local")],
      map[
        "id" := Str("2"),
        "title" := Str(location + " School District Receives State Recognition"),
        "summary" := Str(SchoolSummary),
        "url" := Str("#"),
        "source" := Str(location + " Herald"),
        "publishedAt" := Str(iso(-86400000)),
        "category" := Str("local")]]
  }

  function SportsItems(location: string, iso: int -> string): (items: seq<Record>)
    ensures forall r | r in items :: TextFieldsAreStrings(r) && "date" !in r
  {
    [
      map[
        "id" := Str("1"),
        "title" := Str(location + " High School Football Team Advances to State Championship"),
        "summary" := Str(FootballSummary),
        "url" := Str("#"),
        "source" := Str(location + " Sports"),
        "publishedAt" := Str(iso(0)),
        "category" := Str("sports")]]
  }

  function BusinessListings(location: string, iso: int -> string): (items: seq<Record>)
    ensures forall r | r in items :: TextFieldsAreStrings(r) && "date" !in r
    ensures SameShape(items)
  {
    [
      map[
        "id" := Str("1"),
        "name" := Str("Main Street Coffee"),
        "category" := Str("Restaurant"),
        "address" := Str("123 Main St, " + location),
        "phone" := Str("(555) 123-4567"),
        "website" := Str("https://mainstreetcoffee.com"),
        "rating" := Num(4.5),
        "description" := Str(CoffeeDescription)],
      map[
        "id" := Str("2"),
        "name" := Str("Downtown Pharmacy"),
        "category" := Str("Healthcare"),
        "address" := Str("456 Oak Ave, " + location),
        "phone" := Str("(555) 987-6543"),
        "rating" := Num(4.2),
        "description" := Str(PharmacyDescription)]]
  }

  function JobListings(location: string, iso: int -> string): (items: seq<Record>)
    ensures forall r | r in items :: TextFieldsAreStrings(r) && "date" !in r
  {
    [
      map[
        "id" := Str("1"),
        "title" := Str("Marketing Coordinator"),
        "company" := Str(location + " Marketing Group"),
        "location" := Str(location),
        "salary" := Str("$45,000 - $55,000"),
        "description" := Str(MarketingDescription),
        "postedAt" := Str(iso(0)),
        "type" := Str("full-time")]]
  }

  function RealEstateListings(location: string, iso: int -> string): (items: seq<Record>)
    ensures forall r | r in items :: TextFieldsAreStrings(r) && "date" !in r
  {
    [
      map[
        "id" := Str("1"),
        "address" := Str("789 Elm Street, " + location),
        "price" := Num(350000.0),
        "bedrooms" := Num(3.0),
        "bathrooms" := Num(2.0),
        "sqft" := Num(1800.0),
        "type" := Str("sale"),
        "description" := Str(HomeDescription)]]
  }

  function ForumPosts(location: string, iso: int -> string): (items: seq<Record>)
    ensures forall r | r in items :: TextFieldsAreStrings(r) && "date" !in r
  {
    [
      map[
        "id" := Str("1"),
        "title" := Str("Best restaurants in " + location + "?"),
        "content" := Str(ForumContent),
        "author" := Str("LocalFoodie"),
        "createdAt" := Str(iso(0)),
        "replies" := Num(12.0),
        "category" := Str("Food & Dining")]]
  }

  function ClassifiedAds(location: string, iso: int -> string): (items: seq<Record>)
    ensures forall r | r in items :: TextFieldsAreStrings(r) && "date" !in r
  {
    [
      map[
        "id" := Str("1"),
        "title" := Str("Gently Used Bicycle for Sale"),
        "description" := Str(BicycleDescription),
        "price" := Num(250.0),
        "category" := Str("Sports & Recreation"),
        "contact" := Str("john@email.com"),
        "postedAt" := Str(iso(0))]]
  }

  function DatingProfiles(location: string, iso: int -> string): (items: seq<Record>)
    ensures forall r | r in items :: TextFieldsAreStrings(r) && "date" !in r
    ensures SameShape(items)
  {
    [
      map[
        "id" := Str("1"),
        "name" := Str("Sarah M."),
        "age" := Num(28.0),
        "bio" := Str(SarahBio),
        "interests" := List([Str("Hiking"), Str("Photography"), Str("Cooking"), Str("Travel")]),
        "location" := Str(location),
        "photos" := List([Str(SarahPhoto)]),
        "verified" := Bool(true)],
      map[
        "id" := Str("2"),
        "name" := Str("Mike R."),
        "age" := Num(32.0),
        "bio" := Str(MikeBio),
        "interests" := List([Str("Music"), Str("Teaching"), Str("Craft Beer"), Str("Local Events")]),
        "location" := Str(location),
        "photos" := List([Str(MikePhoto)]),
        "verified" := Bool(true)]]
  }

  function CouponItems(location: string, iso: int -> string): (items: seq<Record>)
    ensures forall r | r in items :: TextFieldsAreStrings(r) && "date" !in r
    ensures SameShape(items)
  {
    [
      map[
        "id" := Str("1"),
        "title" := Str("20% Off Your Next Meal"),
        "description" := Str(MealCouponDescription),
        "discount" := Str("20% OFF"),
        "business" := Str("Main Street Bistro"),
        "category" := Str("Restaurant"),
        "validUntil" := Str(iso(30 * DayMs)),
        "code" := Str("SAVE20"),
        "terms" := Str(MealCouponTerms)],
      map[
        "id" := Str("2"),
        "title" := Str("Free Oil Change"),
        "description" := Str(OilChangeDescription),
        "discount" := Str("FREE"),
        "business" := Str(location + " Auto Care"),
        "category" := Str("Automotive"),
        "validUntil" := Str(iso(14 * DayMs)),
        "terms" := Str(OilChangeTerms)]]
  }

  function ObituaryItems(location: string, iso: int -> string): (items: seq<Record>)
    ensures forall r | r in items :: TextFieldsAreStrings(r) && "date" !in r
  {
    [
      map[
        "id" := Str("1"),
        "name" := Str("Robert Johnson"),
        "age" := Num(78.0),
        "dateOfBirth" := Str("1945-03-15"),
        "dateOfDeath" := Str(iso(-3 * DayMs)),
        "biography" := Str(RobertBiography),
        "survivedBy" := List([Str("Wife Mary Johnson"), Str("Son David Johnson"), Str("Daughter Lisa Smith"), Str("5 grandchildren")]),
        "services" := List([
          Obj(map["type" := Str("Viewing"), "date" := Str(iso(2 * DayMs)), "location" := Str(location + " Funeral Home")]),
          Obj(map["type" := Str("Memorial Service"), "date" := Str(iso(3 * DayMs)), "location" := Str("First Methodist Church")])]),
        "memorialFund" := Str("Local Education Foundation")]]
  }

  // The longer texts of the generated records.
  const CouncilSummary: string := "The city council unanimously voted to approve funding for a new community center that will serve residents with recreational activities and educational programs."
  const SchoolSummary: string := "The local school district has been recognized by the state for excellence in STEM education and student achievement."
  const FootballSummary: string := "The Eagles defeated their rivals 28-14 in a thrilling playoff game that secured their spot in the state championship."
  const CoffeeDescription: string := "Cozy local coffee shop serving artisanal coffee and fresh pastries."
  const PharmacyDescription: string := "Full-service pharmacy with prescription services and health consultations."
  const MarketingDescription: string := "We are seeking a creative marketing coordinator to join our growing team. Responsibilities include social media management, content creation, and campaign coordination."
  const HomeDescription: string := "Beautiful family home with updated kitchen and spacious backyard."
  const ForumContent: string := "Looking for recommendations for good restaurants in the area. Any suggestions for family-friendly places?"
  const BicycleDescription: string := "Mountain bike in excellent condition. Perfect for weekend rides and commuting."
  const SarahBio: string := "Love hiking, coffee shops, and exploring local farmers markets. Looking for someone who enjoys outdoor adventures and good conversation."
  const MikeBio: string := "Local teacher and weekend musician. Enjoy live music, craft beer, and supporting local businesses."
  const SarahPhoto: string := "https://images.unsplash.com/photo-1494790108755-2616b612b786?w=400"
  const MikePhoto: string := "https://images.unsplash.com/photo-1507003211169-0a1dd7228f2d?w=400"
  const MealCouponDescription: string := "Valid for dine-in or takeout orders. Cannot be combined with other offers."
  const MealCouponTerms: string := "Valid until end of month. One per customer."
  const OilChangeDescription: string := "Complimentary oil change with any service over $100."
  const OilChangeTerms: string := "Must present coupon. Valid for standard oil only."
  const RobertBiography: string := "Robert was a beloved husband, father, and grandfather who dedicated his life to education and community service. He taught at the local high school for 40 years and volunteered at the community center."

  /** The number of records each category produces, whatever the location and the clock. */
  function MockCount(category: Category): nat
  {
    match category
    case News => 2
    case Sports => 1
    case Business => 2
    case Jobs => 1
    case RealEstate => 1
    case Forums => 1
    case Classifieds => 1
    case Dating => 2
    case Coupons => 2
    case Obituaries => 1
  }

  lemma MockDataCounts(category: Category, location: string, iso: int -> string)
    ensures |GenerateMockData(category, location, iso)| == MockCount(category)
  {
  }

  /** The records of one category share their shape: any field other than a business's
      `website` or a coupon's `code` holds a string in all of them or in none. */
  lemma GeneratedSameShape(category: Category, location: string, iso: int -> string)
    ensures SameShape(GenerateMockData(category, location, iso))
  {
    match category
    case News =>
    case Business =>
    case Dating =>
    case Coupons =>
    case _ =>
      MockDataCounts(category, location, iso);
  }

  /** Every business listing's address names the location it was generated for. */
  lemma BusinessAddressesContainLocation(location: string, iso: int -> string)
    ensures forall r: Record | r in GenerateMockData(Business, location, iso) ::
      "address" in r && r["address"].Str? && Contains(r["address"].s, location)
  {
    ContainsSuffix("123 Main St, ", location);
    ContainsSuffix("456 Oak Ave, ", location);
  }
}
