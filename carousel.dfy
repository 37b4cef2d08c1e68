/** The image carousel on each Buy-page card: a stored index per car,
    started at 0 the first time the card is drawn, stepped with wrap-around
    by the ❮ and ❯ buttons. */
module Carousel {
  import opened Schema

  /** `(idx + 1) % len(images)`. Python's `%` with a positive right operand
      is never negative, as Dafny's is. */
  function Next(i: int, n: int): (j: int)
    requires n > 0
    ensures 0 <= j < n
    ensures 0 <= i < n - 1 ==> j == i + 1
    ensures i == n - 1 ==> j == 0
  {
    (i + 1) % n
  }

  /** `(idx - 1) % len(images)`: stepping back from the first image lands
      on the last. */
  function Prev(i: int, n: int): (j: int)
    requires n > 0
    ensures 0 <= j < n
    ensures 0 < i < n ==> j == i - 1
    ensures i == 0 ==> j == n - 1
  {
    (i - 1) % n
  }

  /** ❯ undoes ❮ and ❮ undoes ❯ on every index in range. */
  lemma StepsUndo(i: int, n: int)
    requires n > 0 && 0 <= i < n
    ensures Next(Prev(i, n), n) == i
    ensures Prev(Next(i, n), n) == i
  {
  }

  /** Pressing ❯ `k` times from `i`. */
  function Forward(i: int, n: int, k: nat): (j: int)
    requires n > 0
    ensures 0 <= j < n || (k == 0 && j == i)
  {
    if k == 0 then i else Next(Forward(i, n, k - 1), n)
  }

  /** `k` presses of ❯ move the index `k` places round the ring, so `n`
      presses come back to the start. */
  lemma {:induction false} ForwardMoves(i: int, n: int, k: nat)
    requires n > 0 && 0 <= i < n
    ensures Forward(i, n, k) == (i + k) % n
  {
    if k > 0 {
      ForwardMoves(i, n, k - 1);
      ModStep(i + k - 1, n);
    }
  }

  /** Euclidean division has one quotient and one remainder. */
  lemma ModUnique(a: int, n: int, q: int, r: int)
    requires n > 0 && 0 <= r < n && a == q * n + r
    ensures a % n == r
  {
    var q', r' := a / n, a % n;
    assert (q - q') * n == r' - r;
    if q - q' >= 1 {
      assert false;
    } else if q - q' <= -1 {
      assert false;
    }
  }

  lemma ModStep(m: int, n: int)
    requires n > 0
    ensures (m % n + 1) % n == (m + 1) % n
  {
    var q, r := m / n, m % n;
    if r + 1 < n {
      ModUnique(r + 1, n, 0, r + 1);
      ModUnique(m + 1, n, q, r + 1);
    } else {
      ModUnique(r + 1, n, 1, 0);
      ModUnique(m + 1, n, q + 1, 0);
    }
  }

  lemma FullTurn(i: int, n: int)
    requires n > 0 && 0 <= i < n
    ensures Forward(i, n, n) == i
  {
    ForwardMoves(i, n, n);
    ModUnique(i + n, n, 1, i);
  }

  /** What a card shows: the placeholder when the car has no images, the
      image at the stored index otherwise, and an `IndexError` when that
      index no longer fits the image list. */
  datatype Shown = Placeholder | Image(data: Blob) | IndexError

  /** `st.session_state["img_idx_<id>"]` for every card drawn so far. */
  class CarouselState {
    var index: map<int, int>

    /** A stored index is never negative: it starts at 0 and each button
        stores a remainder modulo a positive length. */
    ghost predicate Valid()
      reads this
    {
      forall k :: k in index ==> index[k] >= 0
    }

    constructor ()
      ensures Valid()
      ensures index == map[]
    {
      index := map[];
    }

    /** Drawing a card starts its index at 0 the first time only. */
    method Visit(carId: int)
      requires Valid()
      modifies this
      ensures Valid()
      ensures carId in index
      ensures index == if carId in old(index) then old(index) else old(index)[carId := 0]
    {
      if carId !in index {
        index := index[carId := 0];
      }
    }

    /** The image a drawn card displays. */
    method Current(carId: int, images: seq<Blob>) returns (shown: Shown)
      requires Valid() && carId in index
      ensures images == [] <==> shown == Placeholder
      ensures shown.Image? <==> images != [] && 0 <= index[carId] < |images|
      ensures shown.Image? ==> shown.data == images[index[carId]]
    {
      if images == [] {
        shown := Placeholder;
      } else {
        var i := index[carId];
        if 0 <= i < |images| {
          shown := Image(images[i]);
        } else {
          shown := IndexError;
        }
      }
    }

    /** The ❮ button of a card with `n` images. */
    method Back(carId: int, n: int)
      requires Valid() && n > 0 && carId in index
      modifies this
      ensures Valid()
      ensures index == old(index)[carId := Prev(old(index)[carId], n)]
      ensures 0 <= index[carId] < n
    {
      index := index[carId := Prev(index[carId], n)];
    }

    /** The ❯ button of a card with `n` images. */
    method Ahead(carId: int, n: int)
      requires Valid() && n > 0 && carId in index
      modifies this
      ensures Valid()
      ensures index == old(index)[carId := Next(old(index)[carId], n)]
      ensures 0 <= index[carId] < n
    {
      index := index[carId := Next(index[carId], n)];
    }
  }
}
