/** The car catalog page: the five-field filter form, the query it sends, the
    option lists it derives from the fetched cars, and the sign-in gate on
    "view details". */
module CarCatalog {
  import opened Records
  import opened Folds
  import opened StringOrder

  /** The `name` attribute of each filter input. */
  datatype Field = ModelField | BrandField | TypeField | MinPriceField | MaxPriceField

  /** The `filters` state object; every field is the input's text, "" when unset. */
  datatype Filters = Filters(model: string, brand: string, carType: string, minPrice: string, maxPrice: string)
  {
    function Get(f: Field): string
    {
      match f
      case ModelField => model
      case BrandField => brand
      case TypeField => carType
      case MinPriceField => minPrice
      case MaxPriceField => maxPrice
    }

    /** `{ ...filters, [name]: value }` */
    function With(f: Field, v: string): (r: Filters)
      ensures r.Get(f) == v
      ensures forall g :: g != f ==> r.Get(g) == Get(g)
    {
      match f
      case ModelField => this.(model := v)
      case BrandField => this.(brand := v)
      case TypeField => this.(carType := v)
      case MinPriceField => this.(minPrice := v)
      case MaxPriceField => this.(maxPrice := v)
    }
  }

  /** The initial state and the state `clearFilters` sets. */
  const NoFilters := Filters("", "", "", "", "")

  /** The query-parameter key each field is sent under. */
  function ParamName(f: Field): string
  {
    match f
    case ModelField => "model"
    case BrandField => "brand"
    case TypeField => "type"
    case MinPriceField => "minPrice"
    case MaxPriceField => "maxPrice"
  }

  lemma ParamNamesDistinct()
    ensures forall f, g :: f != g ==> ParamName(f) != ParamName(g)
  {
    assert "minPrice"[1] != "maxPrice"[1];
  }

  /** The `params` object of `fetchCars`: a key per non-empty field, carrying
      the field's text unchanged, and no other key. */
  method BuildParams(filters: Filters) returns (params: map<string, string>)
    ensures forall f :: ParamName(f) in params <==> filters.Get(f) != ""
    ensures forall f :: ParamName(f) in params ==> params[ParamName(f)] == filters.Get(f)
    ensures forall k :: k in params ==> exists f :: ParamName(f) == k
    ensures params == map[] <==> forall f :: filters.Get(f) == ""
  {
    ParamNamesDistinct();
    params := map[];
    if filters.model != "" { params := params["model" := filters.model]; }
    if filters.brand != "" { params := params["brand" := filters.brand]; }
    if filters.carType != "" { params := params["type" := filters.carType]; }
    if filters.minPrice != "" { params := params["minPrice" := filters.minPrice]; }
    if filters.maxPrice != "" { params := params["maxPrice" := filters.maxPrice]; }
    assert ParamName(ModelField) == "model" && ParamName(BrandField) == "brand" && ParamName(TypeField) == "type";
    assert ParamName(MinPriceField) == "minPrice" && ParamName(MaxPriceField) == "maxPrice";
  }

  /** A GET request: the path and its query parameters. */
  datatype Request = Request(path: string, params: map<string, string>)

  /** `Object.keys(params).length ? GET /cars/search?params : GET /cars` */
  function ChooseRequest(params: map<string, string>): (r: Request)
    ensures r.path == "/cars/search" <==> |params| > 0
    ensures r.path == "/cars" <==> |params| == 0
    ensures r.params == params
  {
    if |params| > 0 then Request("/cars/search", params) else Request("/cars", map[])
  }

  /** The request `fetchCars` issues: the search endpoint exactly when some
      filter field is non-empty, with those fields as its parameters. */
  method CarsRequest(filters: Filters) returns (req: Request)
    ensures req.path == "/cars/search" <==> exists f :: filters.Get(f) != ""
    ensures req.path == "/cars" <==> forall f :: filters.Get(f) == ""
    ensures forall f :: ParamName(f) in req.params <==> filters.Get(f) != ""
    ensures forall f :: ParamName(f) in req.params ==> req.params[ParamName(f)] == filters.Get(f)
    ensures forall k :: k in req.params ==> exists f :: ParamName(f) == k
  {
    var params := BuildParams(filters);
    assert |params| == 0 <==> params == map[];
    req := ChooseRequest(params);
  }

  /** `Boolean` as a filter on strings. */
  predicate NonEmpty(s: string)
  {
    s != ""
  }

  /** `[...new Set(values)].filter(Boolean).sort()` */
  function UniqueSorted(values: seq<string>): (r: seq<string>)
    ensures StrictlySorted(r)
    ensures forall v :: v in r <==> v in values && v != ""
  {
    var distinct := Distinct(values);
    FilterNoDup(distinct, NonEmpty);
    FilterMembers(distinct, NonEmpty);
    var present := Filter(distinct, NonEmpty);
    var r := SortStrings(present);
    assert forall v :: v in r <==> v in present by {
      forall v ensures v in r <==> v in present {
        assert v in r <==> v in multiset(r);
        assert v in present <==> v in multiset(present);
      }
    }
    r
  }

  /** The brand options of `fetchFilterOptions`: every non-empty brand of the
      fetched cars, once each, ascending. */
  function Brands(cars: seq<Car>): (r: seq<string>)
    ensures StrictlySorted(r)
    ensures forall v :: v in r <==> v != "" && exists c :: c in cars && c.brand == v
  {
    var values := seq(|cars|, i requires 0 <= i < |cars| => cars[i].brand);
    assert forall c :: c in cars ==> c.brand in values by {
      forall c | c in cars ensures c.brand in values {
        var i :| 0 <= i < |cars| && cars[i] == c;
        assert values[i] == c.brand;
      }
    }
    UniqueSorted(values)
  }

  /** The car-type options of `fetchFilterOptions`, built like the brands. */
  function Types(cars: seq<Car>): (r: seq<string>)
    ensures StrictlySorted(r)
    ensures forall v :: v in r <==> v != "" && exists c :: c in cars && c.carType == v
  {
    var values := seq(|cars|, i requires 0 <= i < |cars| => cars[i].carType);
    assert forall c :: c in cars ==> c.carType in values by {
      forall c | c in cars ensures c.carType in values {
        var i :| 0 <= i < |cars| && cars[i] == c;
        assert values[i] == c.carType;
      }
    }
    UniqueSorted(values)
  }

  /** `updateModelsForBrand(brand, carsList)` with a car list at hand: no
      models for an empty brand; otherwise the non-empty models of the cars of
      exactly that brand, once each, ascending, and none when no car has it. */
  function ModelsForBrand(brand: string, cars: seq<Car>): (r: seq<string>)
    ensures brand == "" ==> r == []
    ensures StrictlySorted(r)
    ensures forall m :: m in r <==> brand != "" && m != "" && exists c :: c in cars && c.brand == brand && c.model == m
    ensures (forall c :: c in cars ==> c.brand != brand) ==> r == []
  {
    if brand == "" then []
    else
      var models := ModelsOf(cars, brand);
      var present := Filter(models, NonEmpty);
      var r := SortStrings(Distinct(present));
      FilterMembers(models, NonEmpty);
      SortedDistinctMembers(present);
      assert r != [] ==> r[0] in r;
      r
  }

  lemma SortedDistinctMembers(values: seq<string>)
    ensures forall m :: m in SortStrings(Distinct(values)) <==> m in values
  {
    var d := Distinct(values);
    var r := SortStrings(d);
    forall m ensures m in r <==> m in values {
      assert m in r <==> m in multiset(r);
      assert m in d <==> m in multiset(d);
    }
  }

  /** `cars.filter(car => car.brand === brand).map(car => car.model)` */
  function ModelsOf(cars: seq<Car>, brand: string): (r: seq<string>)
    ensures forall m :: m in r <==> exists c :: c in cars && c.brand == brand && c.model == m
  {
    if cars == [] then []
    else
      var init, last := cars[..|cars| - 1], cars[|cars| - 1];
      assert cars == init + [last];
      var rest := ModelsOf(init, brand);
      if last.brand == brand then rest + [last.model] else rest
  }

  /** Where "view details" goes, and whether the sign-in toast is shown. */
  datatype Navigation = Navigation(path: string, signInToast: bool)

  /** `handleViewDetails(carId)`: without a signed-in user, the sign-in page
      and a toast; with one, the car's own page. */
  function ViewDetails(signedIn: bool, carId: Id): (nav: Navigation)
    ensures nav.path == "/login" <==> !signedIn
    ensures nav.signInToast <==> !signedIn
    ensures signedIn ==> nav.path == "/cars/" + Decimal(carId)
  {
    if !signedIn then Navigation("/login", true)
    else
      assert ("/cars/" + Decimal(carId))[1] == 'c';
      Navigation("/cars/" + Decimal(carId), false)
  }

  /** The decimal text a template literal gives for a natural number. */
  function Decimal(n: nat): (s: string)
    ensures |s| >= 1
    ensures forall i :: 0 <= i < |s| ==> '0' <= s[i] <= '9'
    ensures s[0] == '0' ==> n == 0
  {
    if n < 10 then [DigitChar(n)] else Decimal(n / 10) + [DigitChar(n % 10)]
  }

  function DigitChar(d: nat): (c: char)
    requires d < 10
    ensures '0' <= c <= '9'
    ensures c as int == '0' as int + d
  {
    ['0', '1', '2', '3', '4', '5', '6', '7', '8', '9'][d]
  }

  /** Reads a string of decimal digits back as a number. */
  function DecimalValue(s: string): nat
    requires forall i :: 0 <= i < |s| ==> '0' <= s[i] <= '9'
  {
    if s == [] then 0
    else DecimalValue(s[..|s| - 1]) * 10 + ((s[|s| - 1] as int) - ('0' as int))
  }

  /** Reading the decimal text back gives the number, so distinct cars have
      distinct detail pages. */
  lemma {:induction false} DecimalRoundTrip(n: nat)
    ensures DecimalValue(Decimal(n)) == n
  {
    if n >= 10 {
      var s := Decimal(n);
      DecimalRoundTrip(n / 10);
      assert s[..|s| - 1] == Decimal(n / 10);
    }
  }

  lemma DetailPagesDistinct(a: Id, b: Id)
    requires a != b
    ensures ViewDetails(true, a).path != ViewDetails(true, b).path
  {
    DecimalRoundTrip(a);
    DecimalRoundTrip(b);
    var da, db := Decimal(a), Decimal(b);
    assert ("/cars/" + da)[6..] == da;
    assert ("/cars/" + db)[6..] == db;
  }

  /** The filter form is consistent when a model is chosen only with a brand. */
  ghost predicate ModelNeedsBrand(f: Filters)
  {
    f.brand == "" ==> f.model == ""
  }

  /** The part of the page's state the filter logic changes. */
  class CatalogPage {
    var filters: Filters
    var brands: seq<string>
    var types: seq<string>
    var models: seq<string>

    constructor ()
      ensures filters == NoFilters && brands == [] && types == [] && models == []
    {
      filters := NoFilters;
      brands, types, models := [], [], [];
    }

    /** The model selector is disabled while no brand is chosen. */
    predicate Enabled(name: Field)
      reads this
    {
      name != ModelField || filters.brand != ""
    }

    /** `handleChange`: the named field takes the value, the other four keep theirs. */
    method HandleChange(name: Field, value: string)
      modifies this
      ensures filters == old(filters).With(name, value)
      ensures brands == old(brands) && types == old(types) && models == old(models)
    {
      filters := filters.With(name, value);
    }

    /** `clearFilters`: all five fields become "". */
    method ClearFilters()
      modifies this
      ensures filters == NoFilters
      ensures brands == old(brands) && types == old(types) && models == old(models)
    {
      filters := NoFilters;
    }

    /** The effect that runs when `filters.brand` changes. With the brand
        cleared it empties the model list and resets the model; with a brand it
        only starts the brand's model fetch, whose result is not modelled. */
    method BrandEffect()
      modifies this
      ensures old(filters.brand) == "" ==> models == [] && filters == old(filters).With(ModelField, "")
      ensures old(filters.brand) != "" ==> models == old(models) && filters == old(filters)
      ensures brands == old(brands) && types == old(types)
    {
      if filters.brand == "" {
        models := [];
        filters := filters.With(ModelField, "");
      }
    }

    /** What `fetchFilterOptions` does once `GET /cars` returns `allCars`. */
    method ApplyFilterOptions(allCars: seq<Car>)
      modifies this
      ensures brands == Brands(allCars) && types == Types(allCars)
      ensures models == if old(filters.brand) != "" then ModelsForBrand(old(filters.brand), allCars) else old(models)
      ensures filters == old(filters)
    {
      brands := Brands(allCars);
      types := Types(allCars);
      if filters.brand != "" {
        models := ModelsForBrand(filters.brand, allCars);
      }
    }

    /** A change event on one input, then the brand effect if the brand
        changed. Only the brand, when it is cleared, touches another field: the
        model. Choosing another non-empty brand keeps the model. */
    method Change(name: Field, value: string)
      modifies this
      ensures name != BrandField ==> filters == old(filters).With(name, value) && models == old(models)
      ensures name == BrandField && value == "" && old(filters.brand) != "" ==> filters == old(filters).With(BrandField, "").With(ModelField, "") && models == []
      ensures name == BrandField && (value != "" || old(filters.brand) == "") ==> filters == old(filters).With(BrandField, value) && models == old(models)
      ensures brands == old(brands) && types == old(types)
      ensures old(ModelNeedsBrand(filters)) && old(Enabled(name)) ==> ModelNeedsBrand(filters)
    {
      var previous := filters.brand;
      HandleChange(name, value);
      if filters.brand != previous {
        BrandEffect();
      }
    }

    /** The "clear" button: every field "", and the model list emptied when a
        brand had been chosen. */
    method Clear()
      modifies this
      ensures filters == NoFilters
      ensures old(filters.brand) != "" ==> models == []
      ensures old(filters.brand) == "" ==> models == old(models)
      ensures brands == old(brands) && types == old(types)
    {
      var previous := filters.brand;
      ClearFilters();
      if previous != "" {
        BrandEffect();
      }
    }
  }
}
