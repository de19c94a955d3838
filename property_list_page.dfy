/**
 * The logic of frontend/src/features/properties/PropertyListPage.tsx: the
 * filter panel's state, the query built from it (empty filters pruned), the
 * split of the fetched list into a sale half and a rent half, the "Reset All"
 * button, and the city shown after geolocation.
 */
module PropertyListPage {
  import opened Common
  import opened Text
  import opened PropertyModel
  import PropertyController

  datatype Filters = Filters(city: string, minPrice: string, maxPrice: string, bedrooms: string)

  /** The `name` attributes of the four inputs. */
  datatype FilterField = CityField | MinPriceField | MaxPriceField | BedroomsField

  const NoFilters := Filters("", "", "", "")

  function Get(f: Filters, field: FilterField): string
  {
    match field
    case CityField => f.city
    case MinPriceField => f.minPrice
    case MaxPriceField => f.maxPrice
    case BedroomsField => f.bedrooms
  }

  /** `{ ...filters, [name]: value }`. */
  function With(f: Filters, field: FilterField, value: string): (r: Filters)
    ensures Get(r, field) == value
    ensures forall g :: g != field ==> Get(r, g) == Get(f, g)
  {
    match field
    case CityField => f.(city := value)
    case MinPriceField => f.(minPrice := value)
    case MaxPriceField => f.(maxPrice := value)
    case BedroomsField => f.(bedrooms := value)
  }

  // ----------------------------------------------------------- query params

  /** `Object.fromEntries(Object.entries(o).filter(([, v]) => v !== ""))`: the entries whose value is not "". */
  function Pruned(o: map<string, string>): (r: map<string, string>)
    ensures forall k :: k in r <==> k in o && o[k] != ""
    ensures forall k :: k in r ==> r[k] == o[k]
  {
    map k | k in o && o[k] != "" :: o[k]
  }

  /** The filter object, with the bedroom count under the given key. */
  function AsObject(f: Filters, bedroomsKey: string): map<string, string>
  {
    map["city" := f.city, "minPrice" := f.minPrice, "maxPrice" := f.maxPrice, bedroomsKey := f.bedrooms]
  }

  /** The parameters the page sends, as written: the bedroom count goes out as `bedrooms`. */
  function QueryParamsAsWritten(f: Filters): PropertyController.Query
  {
    Pruned(AsObject(f, "bedrooms"))
  }

  /** The parameters as intended: the bedroom count goes out as `beds`, the key the listing reads. */
  function QueryParams(f: Filters): PropertyController.Query
  {
    Pruned(AsObject(f, "beds"))
  }

  /**
   * What the page sends as written: exactly the filters whose value is not
   * "", with their values unchanged, under the input names.
   */
  lemma QueryParamsAsWrittenMeaning(f: Filters)
    ensures var q := QueryParamsAsWritten(f);
      && q.Keys <= {"city", "minPrice", "maxPrice", "bedrooms"}
      && ("city" in q <==> f.city != "") && ("city" in q ==> q["city"] == f.city)
      && ("minPrice" in q <==> f.minPrice != "") && ("minPrice" in q ==> q["minPrice"] == f.minPrice)
      && ("maxPrice" in q <==> f.maxPrice != "") && ("maxPrice" in q ==> q["maxPrice"] == f.maxPrice)
      && ("bedrooms" in q <==> f.bedrooms != "") && ("bedrooms" in q ==> q["bedrooms"] == f.bedrooms)
  {
  }

  /**
   * The bedroom filter, as written, never reaches the listing: the backend
   * builds the same filter with or without it, so the minimum-bedrooms
   * condition is never applied.
   */
  lemma BedroomsFilterIgnored(f: Filters, props: seq<Property>, textMatch: (string, Property) -> bool)
    ensures PropertyController.QueryFilter(QueryParamsAsWritten(f)).minBeds == None
    ensures PropertyController.ListReply(props, QueryParamsAsWritten(f), textMatch) ==
      PropertyController.ListReply(props, QueryParamsAsWritten(f.(bedrooms := "")), textMatch)
  {
    QueryParamsAsWrittenMeaning(f);
    QueryParamsAsWrittenMeaning(f.(bedrooms := ""));
    var q1 := QueryParamsAsWritten(f);
    var q2 := QueryParamsAsWritten(f.(bedrooms := ""));
    assert "beds" !in q1;
    forall k | k in PropertyController.ListKeys ensures (k in q1 <==> k in q2) && (k in q1 ==> q1[k] == q2[k]) {
    }
    PropertyController.OtherKeysIgnored(props, q1, q2, textMatch);
  }

  /**
   * The intended query: the same pruning, with the bedroom count under `beds`,
   * where it becomes the listing's minimum-bedrooms bound.
   */
  lemma QueryParamsMeaning(f: Filters)
    ensures var q := QueryParams(f);
      && q.Keys <= {"city", "minPrice", "maxPrice", "beds"}
      && ("city" in q <==> f.city != "") && ("city" in q ==> q["city"] == f.city)
      && ("minPrice" in q <==> f.minPrice != "") && ("minPrice" in q ==> q["minPrice"] == f.minPrice)
      && ("maxPrice" in q <==> f.maxPrice != "") && ("maxPrice" in q ==> q["maxPrice"] == f.maxPrice)
      && ("beds" in q <==> f.bedrooms != "") && ("beds" in q ==> q["beds"] == f.bedrooms)
    ensures PropertyController.QueryFilter(QueryParams(f)).minBeds ==
      (if f.bedrooms == "" then None else Some(JsNumber(f.bedrooms)))
  {
  }

  // ------------------------------------------------------------- the panel

  /** The "Reset All" button is shown iff some filter is non-empty, that is iff some parameter is sent. */
  function ShowReset(f: Filters): (r: bool)
    ensures r <==> f != NoFilters
    ensures r <==> exists field :: Get(f, field) != ""
  {
    if f.city != "" then (assert Get(f, CityField) != ""; true)
    else if f.minPrice != "" then (assert Get(f, MinPriceField) != ""; true)
    else if f.maxPrice != "" then (assert Get(f, MaxPriceField) != ""; true)
    else if f.bedrooms != "" then (assert Get(f, BedroomsField) != ""; true)
    else false
  }

  lemma ShowResetIffParams(f: Filters)
    ensures ShowReset(f) <==> QueryParams(f) != map[]
  {
    QueryParamsMeaning(f);
    if ShowReset(f) {
      assert "city" in QueryParams(f) || "minPrice" in QueryParams(f) || "maxPrice" in QueryParams(f) || "beds" in QueryParams(f);
    }
  }

  /** The page's filter state (`useState`), with its two handlers. */
  class FilterPanel {
    var filters: Filters

    constructor()
      ensures filters == NoFilters
    {
      filters := NoFilters;
    }

    /**
     * The query the page fetches with, as corrected: the bedroom count goes
     * under `beds`. The page as written sends it under `bedrooms`
     * (`QueryParamsAsWritten`), which the server ignores.
     */
    function Query(): PropertyController.Query
      reads this
    {
      QueryParams(filters)
    }

    /** `handleChange`: only the named field changes. */
    method HandleChange(field: FilterField, value: string)
      modifies this
      ensures filters == With(old(filters), field, value)
    {
      filters := With(filters, field, value);
    }

    /** `clearFilters`: back to the initial state, so nothing is sent and the reset button disappears. */
    method ClearFilters()
      modifies this
      ensures filters == NoFilters
      ensures !ShowReset(filters) && Query() == map[]
    {
      filters := NoFilters;
      ShowResetIffParams(filters);
    }
  }

  // ---------------------------------------------------------------- the split

  /** `Math.ceil(n / 2)` for a count. */
  function CeilHalf(n: nat): (r: nat)
    ensures r + r == n || r + r == n + 1
  {
    (n + 1) / 2
  }

  /** `data?.data || []`. */
  function Fetched(data: Option<seq<Property>>): seq<Property>
  {
    if data.Some? then data.value else []
  }

  function SaleList<T>(ps: seq<T>): seq<T>
  {
    ps[..CeilHalf(|ps|)]
  }

  function RentList<T>(ps: seq<T>): seq<T>
  {
    ps[CeilHalf(|ps|)..]
  }

  /** The sale half comes first and is never the smaller; together the halves are the list, in order. */
  lemma SplitMeaning<T>(ps: seq<T>)
    ensures SaleList(ps) + RentList(ps) == ps
    ensures |SaleList(ps)| == |RentList(ps)| || |SaleList(ps)| == |RentList(ps)| + 1
    ensures forall i :: 0 <= i < |RentList(ps)| ==> RentList(ps)[i] == ps[|SaleList(ps)| + i]
  {
  }

  /** What a section shows: placeholders while fetching, the cards, or its empty message. */
  datatype Section = Skeletons | Cards(items: seq<Property>) | NothingFound(message: string)

  function SaleSection(fetching: bool, data: Option<seq<Property>>): Section
  {
    if fetching then Skeletons
    else if |SaleList(Fetched(data))| > 0 then Cards(SaleList(Fetched(data)))
    else NothingFound("No sale properties found matching your filters.")
  }

  function RentSection(fetching: bool, data: Option<seq<Property>>): Section
  {
    if fetching then Skeletons
    else if |RentList(Fetched(data))| > 0 then Cards(RentList(Fetched(data)))
    else NothingFound("No rental properties found matching your filters.")
  }

  /**
   * Once fetched, the two sections show every property once: a list of one
   * goes to sale and leaves rent empty; no data at all counts as an empty list.
   */
  lemma SectionsMeaning(data: Option<seq<Property>>)
    ensures var all := Fetched(data);
      && (|all| > 1 ==>
            && SaleSection(false, data).Cards? && RentSection(false, data).Cards?
            && SaleSection(false, data).items + RentSection(false, data).items == all)
      && (|all| == 1 ==> SaleSection(false, data) == Cards(all) && RentSection(false, data).NothingFound?)
      && (all == [] ==> SaleSection(false, data).NothingFound? && RentSection(false, data).NothingFound?)
  {
    SplitMeaning(Fetched(data));
  }

  // --------------------------------------------------------------- the city

  /** The `address` of a reverse-geocoding answer, the fields the page reads. */
  datatype Address = Address(city: Option<string>, town: Option<string>, village: Option<string>)

  /** How the location lookup ended. */
  datatype Lookup =
    | NoGeolocation                      // the browser has no geolocation
    | Denied                             // the position callback's error branch
    | FetchFailed                        // the fetch or its JSON threw
    | Answered(address: Option<Address>)

  const DefaultCity := "Navi Mumbai"

  /** `a || b`: a value that is absent or "" is falsy. */
  function Truthy(v: Option<string>): bool
  {
    v.Some? && v.value != ""
  }

  /** `address?.city || address?.town || address?.village || "Navi Mumbai"`. */
  function DetectedCity(address: Option<Address>): (r: string)
    ensures address.Some? && Truthy(address.value.city) ==> r == address.value.city.value
    ensures address.Some? && !Truthy(address.value.city) && Truthy(address.value.town) ==> r == address.value.town.value
    ensures address.Some? && !Truthy(address.value.city) && !Truthy(address.value.town) && Truthy(address.value.village) ==>
      r == address.value.village.value
    ensures r != ""
  {
    if address.Some? && Truthy(address.value.city) then address.value.city.value
    else if address.Some? && Truthy(address.value.town) then address.value.town.value
    else if address.Some? && Truthy(address.value.village) then address.value.village.value
    else DefaultCity
  }

  /** The city shown once the lookup has ended; every failure leaves the default. */
  function CityShown(lookup: Lookup): (r: string)
    ensures !lookup.Answered? ==> r == DefaultCity
    ensures lookup.Answered? ==> r == DetectedCity(lookup.address)
  {
    match lookup
    case Answered(address) => DetectedCity(address)
    case _ => DefaultCity
  }

  /** The default shows whenever the answer names no city, town or village. */
  lemma CityFallback(address: Option<Address>)
    ensures DetectedCity(address) == DefaultCity <==>
      address.None? ||
      (!Truthy(address.value.city) && !Truthy(address.value.town) && !Truthy(address.value.village)) ||
      (Truthy(address.value.city) && address.value.city.value == DefaultCity) ||
      (!Truthy(address.value.city) && Truthy(address.value.town) && address.value.town.value == DefaultCity) ||
      (!Truthy(address.value.city) && !Truthy(address.value.town) && Truthy(address.value.village) && address.value.village.value == DefaultCity)
  {
  }
}
