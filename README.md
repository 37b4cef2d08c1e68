# TechCar2 marketplace core in Dafny

TechCar2 is a used-car marketplace. Sellers submit cars with photos and
documents. An administrator approves or rejects each submission. Buyers
browse the approved cars through a filter form. This project models the
decision logic of that marketplace and proves what it guarantees:

- `Schema` (`schema.dfy`): the joined rows the listing query reads
  (`cars JOIN sellers LEFT JOIN car_images`), and `ORDER BY c.created_at DESC`
  as a stable sort.
- `ListingQuery` (`listing_query.dfy`): `get_car_listings`. The conditions
  and parameters are built by a loop over the filter keys. The SQL text is
  assembled, the `WHERE` clause is read as a predicate over rows, and the
  function is proved equal to a field-by-field reference reading of the
  filter.
- `Grouping` (`grouping.dfy`): the `car_dict` fold that turns one row per
  (car, image) into one record per car, kept in first-seen order. It is a
  loop over a map plus an insertion-order list, proved against a functional
  specification.
- `BuyForm` (`buy_form.dfy`): the filter dict built from the Buy page's
  widgets, with its sentinels (`""`, a minimum of 0, a maximum of 10000000).
- `SellForm` (`sell_form.dfy`): the ordered checks on a seller's uploads.
- `Moderation` (`moderation.dfy`): the `status` columns of cars and buyer
  inquiries as maps from id to an optional status, the "pending" and "new"
  predicates, and the buttons that overwrite a status, in a class.
- `Carousel` (`carousel.dfy`): the per-card image index with wrap-around,
  in a class.

The database is replaced by data:

- the listing query receives the joined table as a sequence of rows;
- a status column is a map.

Where the code and its description differ, the code is followed:

- An `UPDATE ... WHERE id = ?` on an id with no row changes nothing and
  reports nothing (`SetStatus`). It is not a "not found" error.
- `if car['image_data']` also skips an empty blob, not only NULL. `images`
  holds the non-empty payloads.

## Model

| member | source | states |
|---|---|---|
| Schema.IsApproved | TechCar2.py:277 | `c.status = 'approved'`: a NULL status compares as unknown and never matches. |
| Schema.IsTruthyBlob | TechCar2.py:317 | `if car['image_data']`: false for NULL and for the empty blob, true for any non-empty payload. |
| Schema.SortDesc | TechCar2.py:308 | `ORDER BY c.created_at DESC`: the result is most recent first and is a permutation of its input (same multiset). |
| Schema.SortDescMembers | TechCar2.py:308 | Ordering neither adds nor drops a row. |
| Grouping.CarIds | TechCar2.py:311-316 | The key order of `car_dict`: the ids are exactly those of the rows, each listed once. |
| Grouping.FirstIndex | TechCar2.py:313-316 | The record stored for an id is `dict(car)` of the first row with that id: no earlier row has it. |
| Grouping.Images | TechCar2.py:311-318 | The `images` list of one car: the truthy `image_data` values of its rows, appended in row order. Its members are pinned by `ImagesMembers`. |
| Grouping.Grouped | TechCar2.py:311-320 | `list(car_dict.values())`: one listing per key, in key order. Each is the first row of its id, with the `images` of that id. |
| Grouping.GroupRows | TechCar2.py:311-320 | The loop over the rows, with a dict and an insertion-order list, returns exactly `Grouped(rows)`. |
| Grouping.FoldStep | TechCar2.py:312-318 | One loop iteration keeps `car_dict` equal to the fold of the rows seen so far. A new id gets an empty `images`; a truthy `image_data` is appended to its car. |
| Grouping.FoldDone | TechCar2.py:320 | Reading the finished dict in insertion order gives `Grouped(rows)`. |
| Grouping.AppendRow | TechCar2.py:312-318 | One more row adds its id at the end if it is new. First rows of earlier ids stay put, and only that car's images can grow. |
| Grouping.CarIdsFirstSeen | TechCar2.py:313-316 | An id earlier in key order has its first row earlier in the stream. |
| Grouping.GroupedKeepsRecency | TechCar2.py:308-320 | A most-recent-first stream gives most-recent-first listings. |
| Grouping.GroupedOncePerCar | TechCar2.py:314-316 | No car id is listed twice. An id is listed iff some row carries it. |
| Grouping.NoImageRowsNoImages | TechCar2.py:316-318 | A car whose rows have no image data (the LEFT JOIN's NULL) gets an empty `images` list. |
| Grouping.ImagesMembers | TechCar2.py:317-318 | `images` holds exactly the non-empty `image_data` payloads of the car's rows. |
| ListingQuery.Value | TechCar2.py:280-305 | `filters.get(key)` for the key a condition comes from, tagged as text for the six string keys and as a number for the two prices. |
| ListingQuery.Active | TechCar2.py:280-305 | `if filters: ... if filters.get(key)`: a condition takes part iff a filter dict is given and its key's value is truthy (not `None`, `""` or `0`). |
| ListingQuery.Holds | TechCar2.py:282-305 | What the database makes of one condition with its bound parameter: equality for `c.maker = ?` and the other text columns, `>=` for `c.price >= ?`, `<=` for `c.price <= ?`. |
| ListingQuery.JoinAnd | TechCar2.py:307 | `" AND ".join(conditions)` over the condition texts. Its placeholder count is stated by `JoinAndPlaceholders`. |
| ListingQuery.JoinAndPlaceholders | TechCar2.py:306-307 | `" AND ".join(conditions)` carries one `?` per condition. |
| ListingQuery.QueryText | TechCar2.py:266-308 | The query text carries exactly one `?` per condition. |
| ListingQuery.AndOnlyWithConditions | TechCar2.py:306-307 | `" AND "` occurs in the query iff there is at least one condition. |
| ListingQuery.NoAndInFixedText | TechCar2.py:266-308 | With no condition, the query is the base text followed by the ordering, with no `" AND "`. |
| ListingQuery.AssembleQuery | TechCar2.py:266-308 | Extending the text in place with `+=` yields `QueryText(conditions)`. |
| ListingQuery.AdmitsByCondition | TechCar2.py:282-305 | The field-by-field reading of a filter dict holds iff every condition with a truthy value holds. |
| ListingQuery.ConditionsMeanAdmits | TechCar2.py:280-305 | Suppose a condition list holds the active conditions, each paired with its filter value in the same position. Then a row satisfies it iff the filter admits the row. |
| ListingQuery.BuiltAll | TechCar2.py:280-305 | Once all eight keys are tested, the lists hold every active condition and select exactly what the filter admits. |
| ListingQuery.CollectConditions | TechCar2.py:280-305 | The eight `if filters.get(key)` tests append, in key order, exactly the truthy keys' conditions. Each is paired with its value. |
| ListingQuery.BuildQuery | TechCar2.py:266-308 | `conditions` and `params` grow in lockstep: equal length, with the `?` count equal to `len(params)`. Conditions follow the key order maker … city. A condition is present iff its value is truthy (none when `filters` is `None`). The rows satisfying the built conditions are exactly those the filter admits. |
| ListingQuery.Where | TechCar2.py:277-307 | The SQL `WHERE`: a row is returned iff it is in the table, has status 'approved' and meets every condition with its parameter. |
| ListingQuery.Admitted | TechCar2.py:277-305 | The reference selection: a row is kept iff it is in the table, approved and admitted by the filter. |
| ListingQuery.WhereIsAdmitted | TechCar2.py:277-309 | A condition list equivalent to the filter selects the same rows, in the same order. |
| ListingQuery.Execute | TechCar2.py:308-310 | `cursor.execute(query, params).fetchall()`: the approved, matching rows, most recent first. |
| ListingQuery.Matching | TechCar2.py:277-310 | The reference row stream: exactly the approved, admitted rows, most recent first. |
| ListingQuery.Listings | TechCar2.py:263-320 | Every listing has status 'approved', whatever the filters, and is admitted by them. No car appears twice. Listings are most recent first. Each carries its car's images. |
| ListingQuery.ListingsCoverMatchingCars | TechCar2.py:277-320 | Every car with an approved row the filter admits is listed. |
| ListingQuery.ListingImages | TechCar2.py:276-318 | A listing's `images` are exactly the non-empty payloads of the approved, admitted rows of its car. |
| ListingQuery.GetCarListings | TechCar2.py:263-320 | The method (build the query, execute it, fold the rows) returns exactly `Listings(table, filters)`. |
| ListingQuery.FalsyFiltersConstrainNothing | TechCar2.py:280-305 | A filter dict whose values are all falsy (`None`, `""`, `0`) lists what `filters=None` lists. |
| ListingQuery.PriceRangeInvertedListsNothing | TechCar2.py:294-299 | A minimum price above the maximum gives an empty list, not an error. |
| BuyForm.ReadForm | TechCar2.py:530-550 | The model box only counts once a maker is chosen, the city box once a state is; otherwise each reads `""`. |
| BuyForm.TextFilter | TechCar2.py:554-561 | `x if x else None`: a value is passed on iff it is non-empty, and then unchanged. |
| BuyForm.FormFilters | TechCar2.py:553-562 | Each text filter is truthy iff its box is filled. `min_price` is truthy iff positive. `max_price` is passed iff below 10000000 and truthy iff also positive. |
| BuyForm.FormAdmits | TechCar2.py:553-562 | What a form selects, read off the widgets. Each filled box must match. The minimum applies when positive. The maximum applies when positive and below 10000000. |
| BuyForm.DefaultFormListsEverything | TechCar2.py:538-562 | The untouched form (blank boxes, minimum 0, maximum 10000000) lists every approved car, as `filters=None` does. |
| BuyForm.FormWithoutChoicesListsEverything | TechCar2.py:553-562 | Any form with blank boxes, minimum 0 and a maximum of 0 or at least 10000000 lists what `filters=None` lists. |
| BuyForm.MaxPriceZeroImposesNoBound | TechCar2.py:559 | A maximum of 0 is passed on as `0`; the truthiness gate then drops it, so it bounds nothing. |
| BuyForm.NoMakerNoModelConstraint | TechCar2.py:531-535 | Without a maker, no model filter is passed on. |
| SellForm.Validate | TechCar2.py:851-860 | A submission is accepted iff it has 1 to 8 images, an RC book and an insurance document. Each error is reported exactly when the earlier checks pass and its own fails: >8 images, then 0 images, then RC book, then insurance. |
| SellForm.ImageCountFirst | TechCar2.py:852-855 | A bad image count is reported whatever documents are attached. |
| SellForm.FixingMovesForward | TechCar2.py:856-860 | Adding the missing RC book leads to acceptance or to the insurance check, never to an earlier error. |
| Moderation.Pending | TechCar2.py:125-126 | A car is pending iff its status is NULL or neither 'approved' nor 'rejected'. |
| Moderation.NewInquiries | TechCar2.py:129-130 | An inquiry is new iff its status is NULL or not 'contacted'. |
| Moderation.SetStatus | TechCar2.py:213-222 | `UPDATE ... SET status = ? WHERE id = ?`: that row gets the status, every other row keeps its own, and no row is added. |
| Moderation.ModerationSettles | TechCar2.py:213-222 | Approving or rejecting a car takes it, and only it, off the pending set. The pending count drops by one when the car was pending. |
| Moderation.ContactedSettles | TechCar2.py:254-258 | Marking an inquiry contacted takes it, and only it, off the new set. The new count drops by one when it was new. |
| Moderation.SetStatusIdempotent | TechCar2.py:215 | Re-approving leaves 'approved'; pressing any button twice equals pressing it once. |
| Moderation.LastWriteWins | TechCar2.py:213-222 | Of two `UPDATE`s of the same row's status, the later one decides: the column is overwritten, not merged. |
| Moderation.SettledStaysSettled | TechCar2.py:156-222 | An approved or rejected car is never pending again after any later Approve or Reject, so moderation is one-way. |
| Moderation.SetStatusCommutes | TechCar2.py:213-222 | Updates to two different rows do not interfere. |
| Moderation.AdminStore.PendingCount | TechCar2.py:125-126 | The dashboard's pending count is the size of the pending set and at most the number of cars. |
| Moderation.AdminStore.NewInquiryCount | TechCar2.py:129-130 | The dashboard's new-inquiry count is the size of the new set and at most the number of inquiries. |
| Moderation.AdminStore.Approve | TechCar2.py:156-217 | The button exists only for the pending cars the section lists, hence it requires a pending id. The car's status becomes 'approved'. The car leaves the pending set, nothing else leaves it, and the inquiries are untouched. |
| Moderation.AdminStore.Reject | TechCar2.py:156-222 | The button exists only for the pending cars the section lists, hence it requires a pending id. The car's status becomes 'rejected'. The car leaves the pending set, nothing else leaves it, and the inquiries are untouched. |
| Moderation.AdminStore.MarkContacted | TechCar2.py:254-258 | The inquiry's status becomes 'contacted'. It leaves the new set and the cars are untouched. |
| Carousel.Next | TechCar2.py:598 | `(idx + 1) % len(images)` is an index in range. It steps forward, wrapping from the last image to the first. |
| Carousel.Prev | TechCar2.py:595 | `(idx - 1) % len(images)` is an index in range. It steps back, wrapping from the first image to the last. |
| Carousel.StepsUndo | TechCar2.py:593-598 | ❯ undoes ❮ and ❮ undoes ❯. |
| Carousel.ForwardMoves | TechCar2.py:596-598 | `k` presses of ❯ move the index `k` places round the ring. |
| Carousel.FullTurn | TechCar2.py:596-598 | `len(images)` presses of ❯ bring the carousel back to where it started. |
| Carousel.CarouselState.Visit | TechCar2.py:578-579 | A card's index starts at 0 the first time it is drawn and is kept afterwards; no stored index is ever negative (`Valid`). |
| Carousel.CarouselState.Current | TechCar2.py:587-600 | A car without images shows the placeholder. Otherwise the image at the stored (never negative) index is shown, or an `IndexError` results when the index is at or past the end of the list. |
| Carousel.CarouselState.Back | TechCar2.py:594-595 | ❮ replaces the card's index by `Prev`, leaving it in range and every stored index non-negative. |
| Carousel.CarouselState.Ahead | TechCar2.py:597-598 | ❯ replaces the card's index by `Next`, leaving it in range and every stored index non-negative. |

## Left out

- Database I/O is not modelled:
  - connections, cursors and commits;
  - schema creation;
  - `add_seller`, `add_car`, `add_car_image`, `add_document`.
  - The listing query is given the rows of `cars JOIN sellers LEFT JOIN car_images`. Inner-join losses (a car without a seller) are therefore already applied by the caller.
- `ORDER BY c.created_at DESC` is a stable sort here. SQLite does not promise how rows with equal timestamps are ordered.
- The SQL text is a list of tokens: fixed text pieces and `?` placeholders. The whitespace and line breaks of the source's triple-quoted string are not reproduced character by character.
- Filter values are typed: text keys hold strings, price keys integers. A dict holding a value of another type is not modelled. An empty dict behaves like `filters=None`, and `FalsyFiltersConstrainNothing` covers it.
- The options offered by the select boxes (`models`, `locations`, `fuel_types`, `transmission_types`) are configuration data. They are not modelled; any string is allowed.
- The cars listing in the admin panel (lines 156-168), including its seller join, per-car image and document fetches and `ORDER BY`, is not modelled. The selection it applies is `Moderation.Pending`, which is why `Approve` and `Reject` require a pending id. Its ordering is the `ORDER BY` modelled in `Schema`.
- SellForm.Validate: assumes the multi-file uploader returns a list, empty when nothing is chosen, and that an uploaded document is truthy. The bytes of uploads are not read.
- What happens after a submission is accepted is not modelled: the seller, car, image and document inserts (lines 861-891).
- OTP sending and verification are an external service and are not modelled.
- The hard-coded admin credential check is not modelled.
- The price estimator is not modelled. `calculate_price` and `calculate_depreciation` are not part of this model, and it is floating-point arithmetic.
- Streamlit rendering, CSS, navigation, expanders, PIL decoding and PDF display are not modelled.
- The mileage field is a float and is not modelled.
- Carousel.CarouselState.Current: the stored index is not reset when a car's image list shrinks between page loads. The model then reports `IndexError`, as the code would raise it.
