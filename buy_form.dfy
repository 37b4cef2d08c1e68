/** The filter dict the Buy page builds from its form before it calls
    `get_car_listings`. */
module BuyForm {
  import opened Schema
  import opened ListingQuery

  /** The price the "Max Price" input starts at; a maximum at or above it
      is not passed on. */
  const MaxPriceDefault: int := 10000000

  /** The widget values as the form returns them. A select box left on its
      blank first entry yields `""`; the two number inputs have
      `min_value=0`. */
  datatype Form = Form(
    maker: string,
    model: string,
    fuelType: string,
    transmission: string,
    minPrice: nat,
    maxPrice: nat,
    state: string,
    city: string)

  /** The form as first shown: every select box blank, the prices at their
      initial values. */
  const DefaultForm: Form := Form("", "", "", "", 0, MaxPriceDefault, "", "")

  /** The model and city boxes only appear once a maker or a state has been
      chosen; otherwise their value is `""`. */
  function ReadForm(maker: string, modelChoice: string, fuelType: string, transmission: string,
                    minPrice: nat, maxPrice: nat, state: string, cityChoice: string): (form: Form)
    ensures maker == "" ==> form.model == ""
    ensures state == "" ==> form.city == ""
    ensures maker != "" ==> form.model == modelChoice
    ensures state != "" ==> form.city == cityChoice
  {
    Form(maker, if maker != "" then modelChoice else "", fuelType, transmission,
         minPrice, maxPrice, state, if state != "" then cityChoice else "")
  }

  /** `x if x else None` for a select box. */
  function TextFilter(x: string): (v: Option<string>)
    ensures v.Some? <==> x != ""
    ensures v.Some? ==> v.value == x
  {
    if x != "" then Some(x) else None
  }

  /** The filter dict of lines 553-562. */
  function FormFilters(form: Form): (f: Filters)
    ensures TruthyText(f.maker) <==> form.maker != ""
    ensures TruthyText(f.model) <==> form.model != ""
    ensures TruthyText(f.fuelType) <==> form.fuelType != ""
    ensures TruthyText(f.transmission) <==> form.transmission != ""
    ensures TruthyNumber(f.minPrice) <==> form.minPrice > 0
    ensures f.maxPrice.Some? <==> form.maxPrice < MaxPriceDefault
    ensures TruthyNumber(f.maxPrice) <==> 0 < form.maxPrice < MaxPriceDefault
    ensures TruthyText(f.state) <==> form.state != ""
    ensures TruthyText(f.city) <==> form.city != ""
  {
    Filters(
      TextFilter(form.maker),
      TextFilter(form.model),
      TextFilter(form.fuelType),
      TextFilter(form.transmission),
      if form.minPrice > 0 then Some(form.minPrice) else None,
      if form.maxPrice < MaxPriceDefault then Some(form.maxPrice) else None,
      TextFilter(form.state),
      TextFilter(form.city))
  }

  /** What a form selects, read off the widgets: each chosen box must match,
      the minimum applies when positive, and the maximum when it is
      positive and below the default. */
  lemma FormAdmits(form: Form, r: Row)
    ensures Admits(Some(FormFilters(form)), r) <==>
      && (form.maker != "" ==> r.car.maker == form.maker)
      && (form.model != "" ==> r.car.model == form.model)
      && (form.fuelType != "" ==> r.car.fuelType == form.fuelType)
      && (form.transmission != "" ==> r.car.transmission == form.transmission)
      && (form.minPrice > 0 ==> r.car.price >= form.minPrice)
      && (0 < form.maxPrice < MaxPriceDefault ==> r.car.price <= form.maxPrice)
      && (form.state != "" ==> r.car.state == form.state)
      && (form.city != "" ==> r.car.city == form.city)
  {
  }

  /** The untouched form lists every approved car, as no filter at all. */
  lemma DefaultFormListsEverything(table: seq<Row>)
    ensures Listings(table, Some(FormFilters(DefaultForm))) == Listings(table, None)
  {
    FalsyFiltersConstrainNothing(table, FormFilters(DefaultForm));
  }

  /** A form whose boxes are blank and whose prices are off their bounds
      (minimum 0, maximum 0 or at least the default) lists what no filter
      lists. A maximum of 0 is passed on as `Some(0)`, but its truthiness
      gate drops it. */
  lemma FormWithoutChoicesListsEverything(table: seq<Row>, form: Form)
    requires form.maker == "" && form.model == "" && form.fuelType == "" && form.transmission == ""
    requires form.state == "" && form.city == ""
    requires form.minPrice == 0
    requires form.maxPrice == 0 || form.maxPrice >= MaxPriceDefault
    ensures Listings(table, Some(FormFilters(form))) == Listings(table, None)
  {
    FalsyFiltersConstrainNothing(table, FormFilters(form));
  }

  /** A maximum price of 0 puts no upper bound on the listings. */
  lemma MaxPriceZeroImposesNoBound(table: seq<Row>, form: Form)
    requires form.maxPrice == 0
    ensures FormFilters(form).maxPrice == Some(0)
    ensures Listings(table, Some(FormFilters(form))) == Listings(table, Some(FormFilters(form.(maxPrice := MaxPriceDefault))))
  {
    AdmittedSame(table, Some(FormFilters(form)), Some(FormFilters(form.(maxPrice := MaxPriceDefault))));
  }

  /** Without a maker the model box is absent, so no model constraint can
      apply, whatever the model box last held. */
  lemma NoMakerNoModelConstraint(modelChoice: string, fuelType: string, transmission: string,
                                 minPrice: nat, maxPrice: nat, state: string, cityChoice: string)
    ensures FormFilters(ReadForm("", modelChoice, fuelType, transmission, minPrice, maxPrice, state, cityChoice)).model == None
  {
  }
}
