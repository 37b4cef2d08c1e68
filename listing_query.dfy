/** `get_car_listings`: the conjunctive filter it builds from the optional
    filter values, the SQL it sends, the rows the database returns for it,
    and the one-record-per-car listings it hands back to the Buy page. */
module ListingQuery {
  import opened Schema
  import opened Grouping

  /** The filter dict. A key that is missing or maps to `None` is `None`
      here; string filters hold text, the two price filters integers. */
  datatype Filters = Filters(
    maker: Option<string>,
    model: Option<string>,
    fuelType: Option<string>,
    transmission: Option<string>,
    minPrice: Option<int>,
    maxPrice: Option<int>,
    state: Option<string>,
    city: Option<string>)

  const NoFilters: Filters := Filters(None, None, None, None, None, None, None, None)

  /** Python truthiness of a filter value: `None`, `""` and `0` are false. */
  predicate TruthyText(v: Option<string>) {
    v.Some? && v.value != ""
  }

  predicate TruthyNumber(v: Option<int>) {
    v.Some? && v.value != 0
  }

  /** The conditions `get_car_listings` can append, one per filter key. */
  datatype Condition =
    | MakerIs | ModelIs | FuelTypeIs | TransmissionIs
    | PriceAtLeast | PriceAtMost | StateIs | CityIs

  /** A bound query parameter. */
  datatype Param = Text(text: string) | Number(number: int)

  /** The position of each filter key in the order the code tests them. */
  function Rank(c: Condition): nat {
    match c
    case MakerIs => 0
    case ModelIs => 1
    case FuelTypeIs => 2
    case TransmissionIs => 3
    case PriceAtLeast => 4
    case PriceAtMost => 5
    case StateIs => 6
    case CityIs => 7
  }

  /** The column test of a condition, up to its placeholder. */
  function Comparison(c: Condition): string {
    match c
    case MakerIs => "c.maker = "
    case ModelIs => "c.model = "
    case FuelTypeIs => "c.fuel_type = "
    case TransmissionIs => "c.transmission = "
    case PriceAtLeast => "c.price >= "
    case PriceAtMost => "c.price <= "
    case StateIs => "c.state = "
    case CityIs => "c.city = "
  }

  /** A piece of SQL text: fixed text, or a `?` placeholder that a bound
      parameter fills. */
  datatype Token = Sql(text: string) | Placeholder

  /** The condition text `get_car_listings` appends, such as `c.maker = ?`. */
  function ConditionSql(c: Condition): seq<Token> {
    [Sql(Comparison(c)), Placeholder]
  }

  /** `filters.get(key)` for the key a condition comes from. */
  function Value(f: Filters, c: Condition): Option<Param> {
    match c
    case MakerIs => if f.maker.Some? then Some(Text(f.maker.value)) else None
    case ModelIs => if f.model.Some? then Some(Text(f.model.value)) else None
    case FuelTypeIs => if f.fuelType.Some? then Some(Text(f.fuelType.value)) else None
    case TransmissionIs => if f.transmission.Some? then Some(Text(f.transmission.value)) else None
    case PriceAtLeast => if f.minPrice.Some? then Some(Number(f.minPrice.value)) else None
    case PriceAtMost => if f.maxPrice.Some? then Some(Number(f.maxPrice.value)) else None
    case StateIs => if f.state.Some? then Some(Text(f.state.value)) else None
    case CityIs => if f.city.Some? then Some(Text(f.city.value)) else None
  }

  /** A condition takes part in the query when `filters` is given and the
      value under its key is truthy. */
  predicate Active(filters: Option<Filters>, c: Condition) {
    filters.Some? &&
    match Value(filters.value, c)
    case None => false
    case Some(Text(t)) => t != ""
    case Some(Number(n)) => n != 0
  }

  /** What the database makes of one condition with its bound parameter
      (a parameter of the other kind never matches). */
  predicate Holds(r: Row, c: Condition, p: Param) {
    match (c, p)
    case (MakerIs, Text(t)) => r.car.maker == t
    case (ModelIs, Text(t)) => r.car.model == t
    case (FuelTypeIs, Text(t)) => r.car.fuelType == t
    case (TransmissionIs, Text(t)) => r.car.transmission == t
    case (PriceAtLeast, Number(n)) => r.car.price >= n
    case (PriceAtMost, Number(n)) => r.car.price <= n
    case (StateIs, Text(t)) => r.car.state == t
    case (CityIs, Text(t)) => r.car.city == t
    case _ => false
  }

  /** The row meets every appended condition with the parameter in the
      same position. */
  predicate Satisfies(r: Row, conditions: seq<Condition>, params: seq<Param>)
    requires |conditions| == |params|
  {
    forall i :: 0 <= i < |conditions| ==> Holds(r, conditions[i], params[i])
  }

  /** The filter read directly, field by field, as "no constraint unless
      the value is truthy": the reference the built query is proved against. */
  predicate Admits(filters: Option<Filters>, r: Row) {
    match filters
    case None => true
    case Some(f) =>
      && (TruthyText(f.maker) ==> r.car.maker == f.maker.value)
      && (TruthyText(f.model) ==> r.car.model == f.model.value)
      && (TruthyText(f.fuelType) ==> r.car.fuelType == f.fuelType.value)
      && (TruthyText(f.transmission) ==> r.car.transmission == f.transmission.value)
      && (TruthyNumber(f.minPrice) ==> r.car.price >= f.minPrice.value)
      && (TruthyNumber(f.maxPrice) ==> r.car.price <= f.maxPrice.value)
      && (TruthyText(f.state) ==> r.car.state == f.state.value)
      && (TruthyText(f.city) ==> r.car.city == f.city.value)
  }

  /** The SQL text, line by line as the source lays it out. */
  const BaseQuery: seq<Token> := [
    Sql("SELECT c.*, "),
    Sql("s.email as seller_email, "),
    Sql("s.phone as seller_phone, "),
    Sql("s.state as seller_state, "),
    Sql("s.city as seller_city, "),
    Sql("ci.image_data as image_data "),
    Sql("FROM cars c "),
    Sql("JOIN sellers s ON c.seller_id = s.id "),
    Sql("LEFT JOIN car_images ci ON c.id = ci.car_id "),
    Sql("WHERE c.status = 'approved'")]
  const And: Token := Sql(" AND ")
  const OrderBy: Token := Sql(" ORDER BY c.created_at DESC")

  /** `" AND ".join(...)` over the condition texts. */
  function JoinAnd(cs: seq<Condition>): seq<Token> {
    if cs == [] then []
    else if |cs| == 1 then ConditionSql(cs[0])
    else ConditionSql(cs[0]) + [And] + JoinAnd(cs[1..])
  }

  /** The number of `?` placeholders in a query text. */
  function Placeholders(q: seq<Token>): nat {
    multiset(q)[Placeholder]
  }

  lemma PlaceholdersAppend(a: seq<Token>, b: seq<Token>)
    ensures Placeholders(a + b) == Placeholders(a) + Placeholders(b)
  {
    assert multiset(a + b) == multiset(a) + multiset(b);
  }

  /** The fixed text of the query carries no placeholder. */
  lemma FixedTextPlaceholders()
    ensures Placeholders(BaseQuery) == 0 && Placeholders([And]) == 0 && Placeholders([OrderBy]) == 0
  {
    assert Placeholder !in BaseQuery;
  }

  /** Every condition text carries one placeholder, the separators none. */
  lemma {:induction false} JoinAndPlaceholders(cs: seq<Condition>)
    ensures Placeholders(JoinAnd(cs)) == |cs|
  {
    if |cs| > 1 {
      JoinAndPlaceholders(cs[1..]);
    }
  }

  /** The active conditions are exactly the constraints `Admits` reads off
      the filter. */
  lemma AdmitsByCondition(f: Filters, r: Row)
    ensures Admits(Some(f), r) <==>
      forall c :: Active(Some(f), c) ==> Holds(r, c, Value(f, c).value)
  {
    if Admits(Some(f), r) {
      forall c | Active(Some(f), c) ensures Holds(r, c, Value(f, c).value) {
        match c
        case MakerIs =>
        case ModelIs =>
        case FuelTypeIs =>
        case TransmissionIs =>
        case PriceAtLeast =>
        case PriceAtMost =>
        case StateIs =>
        case CityIs =>
      }
    } else {
      if TruthyText(f.maker) && r.car.maker != f.maker.value {
        assert Active(Some(f), MakerIs);
      } else if TruthyText(f.model) && r.car.model != f.model.value {
        assert Active(Some(f), ModelIs);
      } else if TruthyText(f.fuelType) && r.car.fuelType != f.fuelType.value {
        assert Active(Some(f), FuelTypeIs);
      } else if TruthyText(f.transmission) && r.car.transmission != f.transmission.value {
        assert Active(Some(f), TransmissionIs);
      } else if TruthyNumber(f.minPrice) && r.car.price < f.minPrice.value {
        assert Active(Some(f), PriceAtLeast);
      } else if TruthyNumber(f.maxPrice) && r.car.price > f.maxPrice.value {
        assert Active(Some(f), PriceAtMost);
      } else if TruthyText(f.state) && r.car.state != f.state.value {
        assert Active(Some(f), StateIs);
      } else {
        assert Active(Some(f), CityIs);
      }
    }
  }

  /** A condition list that holds each active condition once, with the
      filter's own value as its parameter, selects what `Admits` selects. */
  lemma ConditionsMeanAdmits(filters: Option<Filters>, conditions: seq<Condition>, params: seq<Param>, r: Row)
    requires |conditions| == |params|
    requires forall c :: c in conditions <==> Active(filters, c)
    requires conditions != [] ==> filters.Some?
    requires filters.Some? ==> forall i :: 0 <= i < |conditions| ==>
      Value(filters.value, conditions[i]) == Some(params[i])
    ensures Satisfies(r, conditions, params) <==> Admits(filters, r)
  {
    if filters.Some? {
      var f := filters.value;
      AdmitsByCondition(f, r);
      if Satisfies(r, conditions, params) {
        forall c | Active(filters, c) ensures Holds(r, c, Value(f, c).value) {
          var i :| 0 <= i < |conditions| && conditions[i] == c;
        }
      }
      if Admits(filters, r) {
        forall i | 0 <= i < |conditions| ensures Holds(r, conditions[i], params[i]) {
          assert Active(filters, conditions[i]);
        }
      }
    }
  }

  /** After the tests of every filter key ranked below `k`: the conditions
      are the active ones among those keys, in key order, each with its
      filter value as the parameter in the same position. */
  ghost predicate BuiltUpTo(filters: Option<Filters>, conditions: seq<Condition>, params: seq<Param>, k: nat) {
    && |conditions| == |params|
    && (forall i, j :: 0 <= i < j < |conditions| ==> Rank(conditions[i]) < Rank(conditions[j]))
    && (forall c :: c in conditions <==> Active(filters, c) && Rank(c) < k)
    && (conditions != [] ==> filters.Some?)
    && (filters.Some? ==> forall i :: 0 <= i < |conditions| ==>
          Value(filters.value, conditions[i]) == Some(params[i]))
  }

  /** The filter keys in the order `get_car_listings` tests them. */
  const FilterKeys: seq<Condition> :=
    [MakerIs, ModelIs, FuelTypeIs, TransmissionIs, PriceAtLeast, PriceAtMost, StateIs, CityIs]

  lemma FilterKeysRanked()
    ensures |FilterKeys| == 8
    ensures forall k :: 0 <= k < |FilterKeys| ==> Rank(FilterKeys[k]) == k
    ensures forall c :: Rank(c) < 8
  {
  }

  /** Once every key has been tested, the lists hold every active
      condition and select what the filter admits. */
  lemma BuiltAll(filters: Option<Filters>, conditions: seq<Condition>, params: seq<Param>)
    requires BuiltUpTo(filters, conditions, params, 8)
    ensures |conditions| == |params|
    ensures forall i, j :: 0 <= i < j < |conditions| ==> Rank(conditions[i]) < Rank(conditions[j])
    ensures forall c :: c in conditions <==> Active(filters, c)
    ensures conditions != [] ==> filters.Some?
    ensures filters.Some? ==> forall i :: 0 <= i < |conditions| ==>
      Value(filters.value, conditions[i]) == Some(params[i])
    ensures forall r :: Satisfies(r, conditions, params) <==> Admits(filters, r)
  {
    FilterKeysRanked();
    forall r ensures Satisfies(r, conditions, params) <==> Admits(filters, r) {
      ConditionsMeanAdmits(filters, conditions, params, r);
    }
  }

  /** The SQL text sent for a condition list: the base query, then
      `" AND "` and the joined conditions only when there are any, then the
      ordering. */
  function QueryText(conditions: seq<Condition>): (query: seq<Token>)
    ensures Placeholders(query) == |conditions|
  {
    JoinAndPlaceholders(conditions);
    FixedTextPlaceholders();
    PlaceholdersAppend(BaseQuery, [And]);
    PlaceholdersAppend(BaseQuery + [And], JoinAnd(conditions));
    PlaceholdersAppend(BaseQuery + [And] + JoinAnd(conditions), [OrderBy]);
    PlaceholdersAppend(BaseQuery, [OrderBy]);
    if conditions == [] then BaseQuery + [OrderBy]
    else BaseQuery + [And] + JoinAnd(conditions) + [OrderBy]
  }

  /** `" AND "` follows the base text exactly when there are conditions. */
  lemma AndOnlyWithConditions(conditions: seq<Condition>)
    ensures And in QueryText(conditions) <==> conditions != []
  {
    if conditions != [] {
      assert QueryText(conditions)[|BaseQuery|] == And;
    } else {
      NoAndInFixedText();
    }
  }

  /** Without conditions the text is the base query and the ordering. */
  lemma NoAndInFixedText()
    ensures QueryText([]) == BaseQuery + [OrderBy]
    ensures And !in BaseQuery + [OrderBy]
  {
    assert And !in BaseQuery;
  }

  /** The loop over the filter keys: each active key appends its condition
      and its value, in key order. */
  method CollectConditions(filters: Option<Filters>) returns (conditions: seq<Condition>, params: seq<Param>)
    ensures BuiltUpTo(filters, conditions, params, 8)
  {
    conditions, params := [], [];
    FilterKeysRanked();
    if filters.Some? {
      for k := 0 to |FilterKeys|
        invariant BuiltUpTo(filters, conditions, params, k)
      {
        var c := FilterKeys[k];
        if Active(filters, c) {
          conditions := conditions + [c];
          params := params + [Value(filters.value, c).value];
        }
      }
    }
  }

  /** The text is extended in place: `" AND "` and the joined conditions
      when there are any, then the ordering. */
  method AssembleQuery(conditions: seq<Condition>) returns (query: seq<Token>)
    ensures query == QueryText(conditions)
  {
    query := BaseQuery;
    if conditions != [] {
      query := query + [And] + JoinAnd(conditions);
    }
    query := query + [OrderBy];
  }

  /** The condition and parameter lists `get_car_listings` builds, and the
      SQL text it sends with them. */
  method BuildQuery(filters: Option<Filters>) returns (query: seq<Token>, conditions: seq<Condition>, params: seq<Param>)
    ensures |conditions| == |params|
    ensures forall i, j :: 0 <= i < j < |conditions| ==> Rank(conditions[i]) < Rank(conditions[j])
    ensures forall c :: c in conditions <==> Active(filters, c)
    ensures conditions != [] ==> filters.Some?
    ensures filters.Some? ==> forall i :: 0 <= i < |conditions| ==>
      Value(filters.value, conditions[i]) == Some(params[i])
    ensures forall r :: Satisfies(r, conditions, params) <==> Admits(filters, r)
    ensures query == QueryText(conditions)
    ensures Placeholders(query) == |params|
  {
    conditions, params := CollectConditions(filters);
    BuiltAll(filters, conditions, params);
    query := AssembleQuery(conditions);
  }

  /** `WHERE c.status = 'approved' AND <conditions>`, in table order. */
  function Where(table: seq<Row>, conditions: seq<Condition>, params: seq<Param>): (rows: seq<Row>)
    requires |conditions| == |params|
    ensures forall r :: r in rows <==> r in table && IsApproved(r) && Satisfies(r, conditions, params)
  {
    if table == [] then []
    else
      var last := table[|table| - 1];
      var prefix := Where(table[..|table| - 1], conditions, params);
      assert table == table[..|table| - 1] + [last];
      if IsApproved(last) && Satisfies(last, conditions, params) then prefix + [last] else prefix
  }

  /** The approved rows a filter admits, in table order. */
  function Admitted(table: seq<Row>, filters: Option<Filters>): (rows: seq<Row>)
    ensures forall r :: r in rows <==> r in table && IsApproved(r) && Admits(filters, r)
  {
    if table == [] then []
    else
      var last := table[|table| - 1];
      var prefix := Admitted(table[..|table| - 1], filters);
      assert table == table[..|table| - 1] + [last];
      if IsApproved(last) && Admits(filters, last) then prefix + [last] else prefix
  }

  /** A condition list equivalent to a filter selects the same rows. */
  lemma {:induction false} WhereIsAdmitted(table: seq<Row>, filters: Option<Filters>,
                                           conditions: seq<Condition>, params: seq<Param>)
    requires |conditions| == |params|
    requires forall r :: Satisfies(r, conditions, params) <==> Admits(filters, r)
    ensures Where(table, conditions, params) == Admitted(table, filters)
  {
    if table != [] {
      WhereIsAdmitted(table[..|table| - 1], filters, conditions, params);
    }
  }

  /** What the database returns for the query: the approved rows that meet
      every condition, most recent first. */
  function Execute(table: seq<Row>, conditions: seq<Condition>, params: seq<Param>): (rows: seq<Row>)
    requires |conditions| == |params|
    ensures SortedDesc(rows)
    ensures forall r :: r in rows <==> r in table && IsApproved(r) && Satisfies(r, conditions, params)
  {
    SortDescMembers(Where(table, conditions, params));
    SortDesc(Where(table, conditions, params))
  }

  /** The row stream a filter selects, as the reference reads it. */
  function Matching(table: seq<Row>, filters: Option<Filters>): (rows: seq<Row>)
    ensures SortedDesc(rows)
    ensures forall r :: r in rows <==> r in table && IsApproved(r) && Admits(filters, r)
  {
    SortDescMembers(Admitted(table, filters));
    SortDesc(Admitted(table, filters))
  }

  /** The listings a filter yields: every one approved and admitted by the
      filter, one per car, most recent first, each with the images of its
      rows in the selected stream. */
  function Listings(table: seq<Row>, filters: Option<Filters>): (ls: seq<Listing>)
    ensures forall i :: 0 <= i < |ls| ==>
      ls[i].row in table && IsApproved(ls[i].row) && Admits(filters, ls[i].row)
    ensures forall i, j :: 0 <= i < j < |ls| ==> ls[i].row.car.id != ls[j].row.car.id
    ensures forall i, j :: 0 <= i < j < |ls| ==> ls[i].row.car.createdAt >= ls[j].row.car.createdAt
    ensures forall i :: 0 <= i < |ls| ==>
      ls[i].images == Images(Matching(table, filters), ls[i].row.car.id)
  {
    var rows := Matching(table, filters);
    GroupedOncePerCar(rows);
    GroupedKeepsRecency(rows);
    Grouped(rows)
  }

  /** Every car with an approved row the filter admits is listed. */
  lemma ListingsCoverMatchingCars(table: seq<Row>, filters: Option<Filters>, r: Row)
    requires r in table && IsApproved(r) && Admits(filters, r)
    ensures exists i :: (0 <= i < |Listings(table, filters)| &&
      Listings(table, filters)[i].row.car.id == r.car.id)
  {
    var rows := Matching(table, filters);
    var ls := Listings(table, filters);
    assert ls == Grouped(rows);
    assert r in rows;
    assert r.car.id in IdsOf(rows);
    var ids := CarIds(rows);
    var k :| 0 <= k < |ids| && ids[k] == r.car.id;
    assert ls[k].row.car.id == r.car.id;
  }

  /** A listing's `images` are exactly the non-empty image payloads stored
      for its car. */
  lemma ListingImages(table: seq<Row>, filters: Option<Filters>, i: int, b: Blob)
    requires 0 <= i < |Listings(table, filters)|
    ensures b in Listings(table, filters)[i].images <==>
      |b| > 0 && exists r :: (r in table && IsApproved(r) && Admits(filters, r) &&
        r.car.id == Listings(table, filters)[i].row.car.id && r.imageData == Some(b))
  {
    ImagesMembers(Matching(table, filters), Listings(table, filters)[i].row.car.id);
  }

  /** `get_car_listings(filters)` over the joined table. */
  method GetCarListings(table: seq<Row>, filters: Option<Filters>) returns (listings: seq<Listing>)
    ensures listings == Listings(table, filters)
  {
    var query, conditions, params := BuildQuery(filters);
    var rows := Execute(table, conditions, params);
    WhereIsAdmitted(table, filters, conditions, params);
    listings := GroupRows(rows);
  }

  /** A filter value constrains nothing unless it is truthy: a filter dict
      whose values are all falsy lists what no filter dict lists. */
  lemma FalsyFiltersConstrainNothing(table: seq<Row>, f: Filters)
    requires !TruthyText(f.maker) && !TruthyText(f.model)
    requires !TruthyText(f.fuelType) && !TruthyText(f.transmission)
    requires !TruthyNumber(f.minPrice) && !TruthyNumber(f.maxPrice)
    requires !TruthyText(f.state) && !TruthyText(f.city)
    ensures Listings(table, Some(f)) == Listings(table, None)
  {
    AdmittedSame(table, Some(f), None);
  }

  /** A minimum price above the maximum price lists nothing; it is not an
      error. */
  lemma PriceRangeInvertedListsNothing(table: seq<Row>, f: Filters)
    requires TruthyNumber(f.minPrice) && TruthyNumber(f.maxPrice)
    requires f.minPrice.value > f.maxPrice.value
    ensures Listings(table, Some(f)) == []
  {
    NothingAdmitted(table, Some(f));
  }

  /** Two filters that admit the same rows select the same stream. */
  lemma {:induction false} AdmittedSame(table: seq<Row>, f: Option<Filters>, g: Option<Filters>)
    requires forall r :: Admits(f, r) <==> Admits(g, r)
    ensures Admitted(table, f) == Admitted(table, g)
  {
    if table != [] {
      AdmittedSame(table[..|table| - 1], f, g);
    }
  }

  lemma {:induction false} NothingAdmitted(table: seq<Row>, f: Option<Filters>)
    requires forall r :: !Admits(f, r)
    ensures Admitted(table, f) == []
  {
    if table != [] {
      NothingAdmitted(table[..|table| - 1], f);
    }
  }
}
