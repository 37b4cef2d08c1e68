/** The rows the marketplace reads from its database: one row of the join
    `cars c JOIN sellers s LEFT JOIN car_images ci`, and the `ORDER BY
    c.created_at DESC` that the listing queries apply to them. */
module Schema {

  datatype Option<T> = None | Some(value: T)

  /** An image or document payload (a SQLite BLOB). */
  type Blob = seq<bv8>

  /** The columns of the `cars` table that the core reads. `status` is NULL
      until an administrator moderates the car; `createdAt` is the
      timestamp, taken as a number so that `ORDER BY` compares it. */
  datatype Car = Car(
    id: int,
    sellerId: int,
    maker: string,
    model: string,
    fuelType: string,
    transmission: string,
    variant: string,
    year: int,
    kmDriven: int,
    ownership: string,
    price: int,
    state: string,
    city: string,
    extraFeatures: string,
    status: Option<string>,
    createdAt: int)

  /** The seller columns the listing query selects under aliases. */
  datatype SellerContact = SellerContact(email: string, phone: string, state: string, city: string)

  /** One joined row. `imageData` is NULL when the LEFT JOIN found no image. */
  datatype Row = Row(car: Car, seller: SellerContact, imageData: Option<Blob>)

  const Approved: string := "approved"
  const Rejected: string := "rejected"

  /** `c.status = 'approved'`: NULL compares as unknown, so it never matches. */
  predicate IsApproved(r: Row) {
    r.car.status == Some(Approved)
  }

  /** Python truthiness of a fetched BLOB: NULL and the empty blob are false. */
  predicate IsTruthyBlob(b: Option<Blob>) {
    b.Some? && |b.value| > 0
  }

  /** Most recent first. */
  predicate SortedDesc(s: seq<Row>) {
    forall i, j :: 0 <= i < j < |s| ==> s[i].car.createdAt >= s[j].car.createdAt
  }

  /** Places `r` after every row at least as recent as it. */
  function InsertDesc(r: Row, s: seq<Row>): (t: seq<Row>)
    requires SortedDesc(s)
    ensures SortedDesc(t)
    ensures multiset(t) == multiset(s) + multiset{r}
    ensures |t| == |s| + 1
  {
    if s == [] then [r]
    else if s[0].car.createdAt >= r.car.createdAt then
      var rest := InsertDesc(r, s[1..]);
      assert s == [s[0]] + s[1..];
      AtMostHead(s[0], r, s[1..], rest);
      [s[0]] + rest
    else
      [r] + s
  }

  lemma AtMostHead(h: Row, r: Row, s: seq<Row>, t: seq<Row>)
    requires forall j :: 0 <= j < |s| ==> h.car.createdAt >= s[j].car.createdAt
    requires h.car.createdAt >= r.car.createdAt
    requires multiset(t) == multiset(s) + multiset{r}
    ensures forall j :: 0 <= j < |t| ==> h.car.createdAt >= t[j].car.createdAt
  {
    forall j | 0 <= j < |t| ensures h.car.createdAt >= t[j].car.createdAt {
      assert t[j] in multiset(t);
      if t[j] != r {
        assert t[j] in multiset(s);
        var k :| 0 <= k < |s| && s[k] == t[j];
      }
    }
  }

  /** `ORDER BY c.created_at DESC`. Rows with equal timestamps keep table
      order: a stable insertion sort. */
  function SortDesc(s: seq<Row>): (t: seq<Row>)
    ensures SortedDesc(t)
    ensures multiset(t) == multiset(s)
    ensures |t| == |s|
  {
    if s == [] then []
    else
      assert s == s[..|s| - 1] + [s[|s| - 1]];
      InsertDesc(s[|s| - 1], SortDesc(s[..|s| - 1]))
  }

  lemma SortDescMembers(s: seq<Row>)
    ensures forall r :: r in SortDesc(s) <==> r in s
  {
    var t := SortDesc(s);
    forall r ensures r in t <==> r in s {
      assert r in t <==> r in multiset(t);
      assert r in s <==> r in multiset(s);
    }
  }
}
