/** The fold at the end of `get_car_listings`: the joined rows, one per
    (car, image) pair, become one record per car id, in first-seen order,
    each carrying the list of its images. */
module Grouping {
  import opened Schema

  /** One value of `car_dict`: `dict(car)` of the first row seen for the car
      (its own `imageData` included) together with the `images` list. */
  datatype Listing = Listing(row: Row, images: seq<Blob>)

  function Init(s: seq<Row>): seq<Row>
    requires s != []
  {
    s[..|s| - 1]
  }

  function Last(s: seq<Row>): Row
    requires s != []
  {
    s[|s| - 1]
  }

  /** The car ids that occur in `s`. */
  function IdsOf(s: seq<Row>): set<int> {
    set r | r in s :: r.car.id
  }

  /** The car ids of `s` in the order of their first row, each once: the
      key order of `car_dict`. */
  function CarIds(s: seq<Row>): (ids: seq<int>)
    ensures forall id :: id in ids <==> id in IdsOf(s)
    ensures forall i, j :: 0 <= i < j < |ids| ==> ids[i] != ids[j]
  {
    if s == [] then []
    else
      var prefix := CarIds(Init(s));
      assert s == Init(s) + [Last(s)];
      if Last(s).car.id in prefix then prefix else prefix + [Last(s).car.id]
  }

  /** The position of the first row of car `id`. */
  function FirstIndex(s: seq<Row>, id: int): (k: nat)
    requires id in IdsOf(s)
    ensures k < |s| && s[k].car.id == id
    ensures forall j :: 0 <= j < k ==> s[j].car.id != id
  {
    assert s == Init(s) + [Last(s)];
    if id in IdsOf(Init(s)) then FirstIndex(Init(s), id) else |s| - 1
  }

  /** The truthy `image_data` values of the rows of car `id`, in row order. */
  function Images(s: seq<Row>, id: int): (imgs: seq<Blob>)
  {
    if s == [] then []
    else
      var prefix := Images(Init(s), id);
      assert s == Init(s) + [Last(s)];
      if Last(s).car.id == id && IsTruthyBlob(Last(s).imageData)
      then prefix + [Last(s).imageData.value]
      else prefix
  }

  /** `list(car_dict.values())` once every row has been folded in. */
  function Grouped(s: seq<Row>): (ls: seq<Listing>)
    ensures |ls| == |CarIds(s)|
    ensures forall i :: 0 <= i < |ls| ==> ls[i].row in s
    ensures forall i :: 0 <= i < |ls| ==> ls[i].row.car.id == CarIds(s)[i]
    ensures forall i :: 0 <= i < |ls| ==> ls[i].images == Images(s, ls[i].row.car.id)
  {
    var ids := CarIds(s);
    seq(|ids|, i requires 0 <= i < |ids| => Listing(s[FirstIndex(s, ids[i])], Images(s, ids[i])))
  }

  /** `car_dict` holds, for every car id seen so far, the listing the
      stream `seen` makes of it, and nothing else. */
  ghost predicate Folded(seen: seq<Row>, carDict: map<int, Listing>) {
    && (forall id :: id in carDict <==> id in IdsOf(seen))
    && (forall id :: id in carDict ==>
          id in IdsOf(seen) &&
          carDict[id] == Listing(seen[FirstIndex(seen, id)], Images(seen, id)))
  }

  /** The fold itself. `order` is the insertion order a Python dict keeps. */
  method GroupRows(rows: seq<Row>) returns (listings: seq<Listing>)
    ensures listings == Grouped(rows)
  {
    var carDict: map<int, Listing> := map[];
    var order: seq<int> := [];
    for k := 0 to |rows|
      invariant order == CarIds(rows[..k])
      invariant Folded(rows[..k], carDict)
    {
      var car := rows[k];
      var carId := car.car.id;
      ghost var seen, before := rows[..k], carDict;
      assert rows[..k + 1] == seen + [car];
      AppendRow(seen, car);
      if carId !in carDict {
        carDict := carDict[carId := Listing(car, [])];
        order := order + [carId];
      }
      if IsTruthyBlob(car.imageData) {
        var entry := carDict[carId];
        carDict := carDict[carId := entry.(images := entry.images + [car.imageData.value])];
      }
      FoldStep(seen, car, before, carDict);
    }
    assert rows[..|rows|] == rows;
    listings := seq(|order|, i requires 0 <= i < |order| => carDict[order[i]]);
    FoldDone(rows, order, carDict, listings);
  }

  /** The loop body keeps `Folded`: a new id gets a fresh entry with no
      images, and a truthy image is appended to its car's entry. */
  lemma FoldStep(seen: seq<Row>, r: Row, before: map<int, Listing>, after: map<int, Listing>)
    requires Folded(seen, before)
    requires after == (
      var d := if r.car.id in before then before else before[r.car.id := Listing(r, [])];
      if IsTruthyBlob(r.imageData)
      then d[r.car.id := d[r.car.id].(images := d[r.car.id].images + [r.imageData.value])]
      else d)
    ensures Folded(seen + [r], after)
  {
    var t := seen + [r];
    AppendRow(seen, r);
    forall id | id in after
      ensures id in IdsOf(t) && after[id] == Listing(t[FirstIndex(t, id)], Images(t, id))
    {
      if id != r.car.id {
        assert after[id] == before[id];
        assert t[FirstIndex(t, id)] == seen[FirstIndex(seen, id)];
      } else if r.car.id in before {
        assert t[FirstIndex(t, id)] == seen[FirstIndex(seen, id)];
      } else {
        NoImageRowsNoImages(seen, id);
      }
    }
  }

  /** `list(car_dict.values())` read in key order is the grouped stream. */
  lemma FoldDone(rows: seq<Row>, order: seq<int>, carDict: map<int, Listing>, listings: seq<Listing>)
    requires order == CarIds(rows)
    requires Folded(rows, carDict)
    requires |listings| == |order|
    requires forall i :: 0 <= i < |order| ==> order[i] in carDict && listings[i] == carDict[order[i]]
    ensures listings == Grouped(rows)
  {
  }

  /** How one more row changes the fold's view of the stream. */
  lemma AppendRow(s: seq<Row>, r: Row)
    ensures CarIds(s + [r]) == if r.car.id in CarIds(s) then CarIds(s) else CarIds(s) + [r.car.id]
    ensures IdsOf(s + [r]) == IdsOf(s) + {r.car.id}
    ensures forall id :: id in IdsOf(s) ==> FirstIndex(s + [r], id) == FirstIndex(s, id)
    ensures r.car.id !in IdsOf(s) ==> FirstIndex(s + [r], r.car.id) == |s|
    ensures forall id ::
      Images(s + [r], id) ==
        (if id == r.car.id && IsTruthyBlob(r.imageData) then Images(s, id) + [r.imageData.value]
         else Images(s, id))
  {
    var t := s + [r];
    assert Init(t) == s && Last(t) == r;
  }

  lemma {:induction false} CarIdsFirstSeen(s: seq<Row>, i: int, j: int)
    requires 0 <= i < j < |CarIds(s)|
    ensures CarIds(s)[i] in IdsOf(s) && CarIds(s)[j] in IdsOf(s)
    ensures FirstIndex(s, CarIds(s)[i]) < FirstIndex(s, CarIds(s)[j])
  {
    var ids := CarIds(s);
    assert s == Init(s) + [Last(s)];
    var p := CarIds(Init(s));
    if j < |p| {
      CarIdsFirstSeen(Init(s), i, j);
    } else {
      assert ids[j] == Last(s).car.id && ids[j] !in p;
      assert ids[i] == p[i];
    }
  }

  /** A row stream that is most recent first gives listings that are most
      recent first. */
  lemma GroupedKeepsRecency(s: seq<Row>)
    requires SortedDesc(s)
    ensures forall i, j :: 0 <= i < j < |Grouped(s)| ==>
      Grouped(s)[i].row.car.createdAt >= Grouped(s)[j].row.car.createdAt
  {
    var ls := Grouped(s);
    var ids := CarIds(s);
    forall i, j | 0 <= i < j < |ls|
      ensures ls[i].row.car.createdAt >= ls[j].row.car.createdAt
    {
      CarIdsFirstSeen(s, i, j);
    }
  }

  /** No car id is listed twice, and exactly the ids of the rows are listed. */
  lemma GroupedOncePerCar(s: seq<Row>)
    ensures forall i, j :: 0 <= i < j < |Grouped(s)| ==>
      Grouped(s)[i].row.car.id != Grouped(s)[j].row.car.id
    ensures forall id :: id in IdsOf(s) <==>
      exists i :: 0 <= i < |Grouped(s)| && Grouped(s)[i].row.car.id == id
  {
    var ls := Grouped(s);
    forall id | id in IdsOf(s)
      ensures exists i :: 0 <= i < |ls| && ls[i].row.car.id == id
    {
      var k :| 0 <= k < |CarIds(s)| && CarIds(s)[k] == id;
      assert ls[k].row.car.id == id;
    }
  }

  /** A car whose rows carry no image data (the LEFT JOIN's NULL) is listed
      with an empty `images` list. */
  lemma {:induction false} NoImageRowsNoImages(s: seq<Row>, id: int)
    requires forall r :: r in s && r.car.id == id ==> !IsTruthyBlob(r.imageData)
    ensures Images(s, id) == []
  {
    if s != [] {
      NoImageRowsNoImages(Init(s), id);
    }
  }

  /** `images` holds exactly the truthy image payloads of the car's rows. */
  lemma {:induction false} ImagesMembers(s: seq<Row>, id: int)
    ensures forall b :: b in Images(s, id) <==>
      exists r :: r in s && r.car.id == id && r.imageData == Some(b) && |b| > 0
  {
    if s != [] {
      ImagesMembers(Init(s), id);
      assert s == Init(s) + [Last(s)];
    }
  }
}
