# Order normaliser model

`parse_orders.py` reads a JSON array of order events and flattens each record's
`event_payload.order` into five tables: orders, customers, order items,
discounts and shipping details. It drops duplicate customer rows, asserts that
none of the five tables is empty, and writes them as CSV files. This project
models that script, from the list `load_json` returns to the tables handed to
the CSV writer, and proves what the tables contain.

Modules:

- `Wrappers` holds `Option` and `Result`.
- `JsonValues` holds the decoded JSON value and the Python operations the loop
  applies to it:
  - `dict.get` as `Get`;
  - truthiness as `Truthy`;
  - a path query `Lookup`, the reference every `.get` chain is compared with.
- `Rows` holds the five row types, the rows of one record and the five lists.
- `Normaliser` models the loop body and the loop:
  - the specification functions `NormaliseRecord` (the body) and `Normalise`,
    which is `Loop` over records with that body, so the loop's own
    properties are proved once for any body;
  - the imperative loop `NormaliseOrders` and its helper methods, each proved
    equal to its specification function.

  Every exception the body can raise is a `Failure`:
  - `.get` on a value that is not a dict;
  - iterating None, a bool or a number;
  - `strptime` given a value that is not a string;
  - an epoch conversion error other than `ValueError` or `TypeError`.

  An uncaught exception ends the script, so the first failing record ends the
  run (`Crash`).
- `NormaliserProperties` states the loop's behaviour against path queries on
  the input:
  - which fields each row holds;
  - the row counts;
  - exactly which records go through without raising;
  - that the run stops at the first record that raises.
- `Dedup` models `drop_duplicates()` on the customer rows. It keeps the first
  occurrence of each row, and the lemmas show that this is the only result
  with the same members, no duplicates and first-occurrence order.
- `Pipeline` models the script around the loop:
  - loading;
  - the hashability requirement of `drop_duplicates`;
  - the five emptiness assertions;
  - the end-to-end properties and a two-order scenario.

Where the code and its documented intent differ, the model follows the code:

- **A number for `placedAt`.** The documented intent is that `placedAt` may be
  a string or a number, and a number is converted as an epoch timestamp. In
  the code, a truthy `placedAt` goes straight to `strptime`. For anything but
  a string, that raises `TypeError`, which the surrounding `except ValueError`
  does not catch, so the run ends. Only a string reaches the epoch
  conversion. A numeric string in range is converted, and a non-numeric
  string becomes None. An out-of-range one such as "1e300" or "inf" becomes
  None when the conversion raises `ValueError` or `TypeError` and ends the
  run otherwise.
  `Normaliser.OrderDate` states this.
- **An empty discounts table.** Its assertion message says emptiness "might be
  expected", but the assertion is as strict as the others. A run whose records
  hold no discount at all stops there (`Pipeline.NoDiscountsAborts`).
- **A malformed record.** The documented intent is that a malformed record
  never aborts the batch. In the code, any exception the loop body raises is
  uncaught and ends the script. Examples are `"amounts": null` (`.get` on
  None) and `"lineItems": null` (iterating None). The model crashes the run at
  the first such record (`Normaliser.LoopStopsAtFirstCrash`,
  `NormaliserProperties.NormaliseStopsAtFirstCrash`), and
  `NormaliserProperties.NormaliseRecordSucceedsIff` says exactly which records
  go through.

## Model

| member | source | states |
|---|---|---|
| JsonValues.Get | parse_orders.py:40 | `d.get(key, default)`: the value under the key, else the default (None for a one-argument `.get`). See `NormaliserProperties.GetIsLookup`. |
| JsonValues.Truthy | parse_orders.py:48 | Python's truth value: None, False, 0, "", [] and {} are falsy. See `Normaliser.OrderDate` and `NormaliserProperties.DiscountsHandledIff`. |
| Normaliser.OrderOf | parse_orders.py:37-40 | The order dict of a record, or the AttributeError of `.get` on a non-dict: line 37 for the record or event_payload, the first `order.get` at line 40 for the order. See `NormaliserProperties.OrderOfSucceedsIff` and `NormaliserProperties.LookupInOrder`. |
| Normaliser.OrderHeader | parse_orders.py:40-67 | The order row of an order dict. See `NormaliserProperties.OrderRowFollowsPaths`. |
| Normaliser.CustomerRowOf | parse_orders.py:70-78 | The customer row of an order dict. See `NormaliserProperties.CustomerRowFollowsPaths`. |
| Normaliser.ItemRowOf | parse_orders.py:82-90 | The row of one lineItems element. See `NormaliserProperties.ItemRowOfByPaths`. |
| Normaliser.LineItemRows | parse_orders.py:81 | The rows of iterating lineItems. See `NormaliserProperties.LineItemsHandledIff` and `NormaliserProperties.ItemRowsFollowLineItems`. |
| Normaliser.DiscountRowOf | parse_orders.py:96-101 | The row of one appliedDiscounts element. See `NormaliserProperties.DiscountRowOfByPaths`. |
| Normaliser.AppliedDiscountRows | parse_orders.py:93-95 | The rows of the truthiness check and discount loop. See `NormaliserProperties.DiscountsHandledIff` and `NormaliserProperties.DiscountRowsFollowAppliedDiscounts`. |
| Normaliser.ShippingRowOf | parse_orders.py:104-112 | The shipping row of an order dict. See `NormaliserProperties.ShippingRowFollowsPaths` and `NormaliserProperties.ShippingWithoutAddress`. |
| Normaliser.NormaliseRecord | parse_orders.py:37-112 | One pass of the loop body: the record's rows, or the first exception in source order. See `NormaliserProperties.NormaliseRecordSucceedsIff` and `NormaliserProperties.MissingOrderGivesDefaultRows`. |
| Normaliser.Loop | parse_orders.py:36-112 | The for loop over records with a given body. See `Normaliser.LoopSizes`, `Normaliser.LoopAt`, `Normaliser.LoopChildRows` and `Normaliser.LoopStopsAtFirstCrash`. |
| Normaliser.Normalise | parse_orders.py:36-112 | The loop with the record body. See `NormaliserProperties.NormaliseShape`, `NormaliserProperties.NormaliseChildRows`, `NormaliserProperties.NormaliseCounts` and `NormaliserProperties.NormaliseStopsAtFirstCrash`. |
| Normaliser.OrderDate | parse_orders.py:48-57 | A falsy placedAt is kept unchanged. A truthy one is never kept as it came: it becomes a timestamp or None, or the record raises. A truthy value that is not a string always raises. |
| Normaliser.ParseOrderDate | parse_orders.py:48-57 | The reassigning timestamp code gives exactly `OrderDate`. |
| Normaliser.ItemRows | parse_orders.py:81-90 | When the item loop gets through a list, it appends one row per element. |
| Normaliser.DiscountRows | parse_orders.py:95-101 | When the discount loop gets through a list, it appends one row per element. |
| Normaliser.ItemFaultPersists | parse_orders.py:81-90 | Once an element of lineItems raises, the item loop's outcome is that exception, whatever follows it. |
| Normaliser.DiscountFaultPersists | parse_orders.py:95-101 | Once an element of appliedDiscounts raises, the discount loop's outcome is that exception. |
| Normaliser.CollectItemRows | parse_orders.py:81-90 | The nested item loop gives exactly `LineItemRows`: the rows of a list, no rows for "" or {}, and the exception otherwise. |
| Normaliser.CollectDiscountRows | parse_orders.py:93-101 | The truthiness check and the discount loop give exactly `AppliedDiscountRows`. |
| Normaliser.NormaliseOne | parse_orders.py:37-112 | One pass of the loop body gives exactly `NormaliseRecord`: the five kinds of rows, or the first exception in source order. |
| Normaliser.CrashPersists | parse_orders.py:36-112 | Once a record raises, the loop's outcome is that crash, whatever records follow. |
| Normaliser.LoopSizes | parse_orders.py:36-112 | Whatever the body, a loop that gets through appends exactly one order, one customer and one shipping row per record. |
| Normaliser.LoopAt | parse_orders.py:36-112 | Order, customer and shipping row i of a loop that gets through are record i's rows. |
| Normaliser.LoopChildRows | parse_orders.py:36-101 | For any body: the item and discount lists after the loop are each pass's item and discount rows, concatenated record by record in input order. |
| Normaliser.LoopStopsAtFirstCrash | parse_orders.py:36-112 | The loop gets through exactly when every pass does. Otherwise it stops at the first record whose pass raises, with that exception, and every pass before it went through. |
| Normaliser.LoopKeepsOrderIds | parse_orders.py:81-112 | When each pass's child rows carry its order_id, every item and discount row of the loop carries some order row's order_id, and shipping row i carries order row i's. |
| Normaliser.NormaliseOrders | parse_orders.py:36-112 | The loop with its five accumulating lists gives exactly `Normalise`: every record's rows appended in input order, or the first record's exception with its index. |
| NormaliserProperties.GetIsLookup | parse_orders.py:40 | A one-argument `order.get(key)` is the path query for that key, with None when it is missing. |
| NormaliserProperties.GetGetIsLookup | parse_orders.py:42 | A two-step `.get(..., {}).get(...)` chain is the two-key path query with its default. |
| NormaliserProperties.GetGetGetIsLookup | parse_orders.py:104 | A `.get` chain through two dict defaults is the three-key path query. |
| NormaliserProperties.LookupInOrder | parse_orders.py:37 | Looking below the order the record yields is the path query below `event_payload.order`. |
| NormaliserProperties.OrderFieldIsLookup | parse_orders.py:40-45 | Each `order.get(key, default)` is the path query `event_payload.order.key`, with that default. |
| NormaliserProperties.OrderRowFollowsPaths | parse_orders.py:40-67 | The order row holds the orderId, customerReference, currency and source found under the order (None when absent), and amounts.total, defaulting to 0. Its order_date is `OrderDate` of placedAt. |
| NormaliserProperties.CustomerRowFollowsPaths | parse_orders.py:70-78 | The customer row holds customerReference and customerDetails' firstName, lastName and email, None when absent. |
| NormaliserProperties.ShippingRowFollowsPaths | parse_orders.py:104-112 | The shipping row carries the order's order_id and the address's city, country, postcode, line1 and line2, None when absent. |
| NormaliserProperties.ShippingWithoutAddress | parse_orders.py:104-112 | With no shippingDetails or no address, the record still gives a shipping row: its order_id and every address field None. |
| NormaliserProperties.ItemRowOfByPaths | parse_orders.py:82-90 | An item element gives a row exactly when it is a dict whose amounts is a dict or missing. The row holds its productId, variantId, sku and quantity (None when absent) and amounts.subtotal and amounts.total (0 when absent). |
| NormaliserProperties.DiscountRowOfByPaths | parse_orders.py:96-101 | A discount element gives a row exactly when it is a dict. The row holds its code, type and value, None when absent. |
| NormaliserProperties.ItemRowsAt | parse_orders.py:81-90 | The item loop gets through a list exactly when every element gives a row, and row j is element j's row. |
| NormaliserProperties.DiscountRowsAt | parse_orders.py:95-101 | The discount loop gets through a list exactly when every element gives a row, and row j is element j's row. |
| NormaliserProperties.ItemRowsFollowLineItems | parse_orders.py:81-90 | A record gives as many item rows as its lineItems list has elements (0 when absent). Each row carries the order's order_id and its element's fields. |
| NormaliserProperties.DiscountRowsFollowAppliedDiscounts | parse_orders.py:93-101 | A record gives as many discount rows as its appliedDiscounts list has elements (0 when absent, empty or null). Each row carries the order's order_id and its element's fields. |
| NormaliserProperties.OrderOfSucceedsIff | parse_orders.py:37-40 | Line 37, with the first `order.get` at line 40, raises exactly when the record is not a dict, or event_payload or order is present but not a dict. |
| NormaliserProperties.DateHandledIff | parse_orders.py:48-57 | The timestamp code raises exactly when placedAt is truthy and either not a string, or a string that the fixed format rejects and the epoch conversion raises on outside (ValueError, TypeError). |
| NormaliserProperties.LineItemsHandledIff | parse_orders.py:81-90 | The item loop raises exactly when lineItems is not a list, "" or {}, or one of its elements is not a dict or has an amounts that is not a dict. |
| NormaliserProperties.DiscountsHandledIff | parse_orders.py:93-101 | The discount code raises exactly when appliedDiscounts is truthy and either not a list, or a list with an element that is not a dict. |
| NormaliserProperties.NormaliseRecordSucceedsIff | parse_orders.py:37-112 | The loop body raises on a record exactly when the record is not `Handled`, a condition stated purely by path queries on the record. |
| NormaliserProperties.MissingOrderGivesDefaultRows | parse_orders.py:37-112 | A record with no event_payload, or no order in it, gives one order, one customer and one shipping row. All their fields are None except total_price 0, and there are no item or discount rows. |
| NormaliserProperties.NormaliseShape | parse_orders.py:36-112 | After the loop there is one order, customer and shipping row per record, in input order; orders are not de-duplicated. Row i is record i's row. |
| NormaliserProperties.RecordChildRowsByPaths | parse_orders.py:81-101 | A record that goes through gives one item row per element of its lineItems list and one discount row per element of its appliedDiscounts list, in order, each built by path queries and carrying the record's orderId. There are none when the value is not a list. |
| NormaliserProperties.NormaliseChildRows | parse_orders.py:36-101 | After the loop, the order-items and discounts tables are each record's rows by path queries, concatenated in input order. |
| NormaliserProperties.NormaliseCounts | parse_orders.py:36-112 | After the loop there are as many order, customer and shipping rows as records. There are as many item rows as lineItems elements and as many discount rows as appliedDiscounts elements, summed over all records. |
| NormaliserProperties.NormaliseStopsAtFirstCrash | parse_orders.py:36-112 | The loop gets through exactly when every record is `Handled`. Otherwise it stops at the first record that is not, with that record's exception. |
| NormaliserProperties.RecordCarriesOrderId | parse_orders.py:81-112 | The item, discount and shipping rows of a record all carry its order row's order_id. |
| NormaliserProperties.ChildRowsReferenceOrders | parse_orders.py:81-112 | Every item and discount row carries the order_id of some order row, and shipping row i carries order row i's order_id. |
| NormaliserProperties.OrdersFollowRecords | parse_orders.py:36-112 | Order row i and shipping row i hold record i's orderId (None when absent). |
| Dedup.DropDuplicates | parse_orders.py:116 | The de-duplicated customers hold exactly the rows of the input and no row twice. |
| Dedup.DropDuplicatesKeepsFirstOccurrenceOrder | parse_orders.py:116 | The surviving rows appear in the order of their first occurrences. |
| Dedup.DropDuplicatesIsUnique | parse_orders.py:116 | Any sequence with the input's rows, no duplicates and first-occurrence order is the result of `drop_duplicates`. |
| Dedup.DropDuplicatesIsShorter | parse_orders.py:116 | Dropping duplicates never adds rows. |
| Pipeline.LoadRecords | parse_orders.py:13-23 | The parsed list, or [] for a failed load or a non-list document. See `Pipeline.NothingLoadedAborts`. |
| Pipeline.Hashable | parse_orders.py:116 | A cell drop_duplicates can hash: not a list or dict. See `Pipeline.CustomerRowsHashableIff`. |
| Pipeline.Finish | parse_orders.py:116-126 | De-duplication and the five assertions on the loop's tables. See `Pipeline.FinishSucceedsIff`. |
| Pipeline.Run | parse_orders.py:36-126 | The loop, then `Finish`. See `Pipeline.PipelineSucceedsIff` and `Pipeline.PipelineTables`. |
| Pipeline.CustomerRowsHashableIff | parse_orders.py:116 | After the loop, every customer row is hashable exactly when every record's customerReference and customerDetails' firstName, lastName and email are not lists or dicts, as found by path queries on the record. |
| Pipeline.FirstEmpty | parse_orders.py:122-126 | The assertions pass exactly when all five tables hold a row. Otherwise the one that fails names an empty table, and every table checked before it holds rows. |
| Pipeline.FinishSucceedsIff | parse_orders.py:116-126 | After the loop, de-duplication and the assertions go through exactly when no customer cell is a list or dict and every table holds a row. The customers table is then the de-duplicated one. |
| Pipeline.ParseOrders | parse_orders.py:36-126 | The script from the loop to the assertions gives exactly `Run`: the tables written, or the crash, unhashable customer or empty table that stops it. |
| Pipeline.NothingLoadedAborts | parse_orders.py:13-23 | A missing or unreadable file, a document that is not a list, and an empty list all stop the run at the orders assertion. |
| Pipeline.AssertionsAfterLoop | parse_orders.py:116-126 | Once the loop has gone through, the assertions pass exactly when every record's customer cells are hashable, there is a record, and the records hold at least one line item and at least one discount. |
| Pipeline.PipelineSucceedsIff | parse_orders.py:36-126 | The CSV files are written exactly when every record is `Handled` and its customer cells are hashable, there is a record, and there is at least one line item and one discount in all. All of it is stated by path queries on the records. |
| Pipeline.PipelineTables | parse_orders.py:115-119 | A run that gets through writes every order and shipping row (one per record), each record's item and discount rows by path queries in input order, and the customer rows with duplicates dropped: the same rows, none twice, in first-occurrence order, at most one per record. |
| Pipeline.NoDiscountsAborts | parse_orders.py:125 | Records that all go through with hashable customer cells, with line items but no discount anywhere, stop the run at the discounts assertion. |
| Pipeline.DiscountsCheckedAfterItems | parse_orders.py:122-125 | With records, line items and hashable customers but no discounts, the assertions fail on the discounts table and not an earlier one. |
| Pipeline.EmptyElementRows | parse_orders.py:81-101 | Two `{}` line items give two rows of None fields with zero amounts, and one `{}` discount gives one row of None fields. |
| Pipeline.TwoOrdersScenario | parse_orders.py:36-126 | Two orders by the same customer, one with two line items and a discount and one with neither, give 2 order rows, 1 customer row, 2 item rows, 1 discount row and 2 shipping rows. |

## Left out

- Reading the file and `json.load` are not modelled. Parse errors and logging go with them, since `LoadRecords` takes the parsed document or None.
- The `logging` calls (lines 19, 22, 54, 56, 128 and 137) are left out; they do not affect the tables.
- Building the DataFrames, their column names and `to_csv` (lines 115-119 and 131-135) are modelled only as the five row sequences handed to the writer.
- `datetime.strptime` and `datetime.fromtimestamp(float(...))` are parameters of the model (`DateParsers`), not implementations. The local time zone of the epoch conversion lives inside that parameter.
- Normaliser.OrderDate: which exception the epoch conversion raises outside (ValueError, TypeError) depends on the platform (OverflowError, OSError). The model treats every such exception as one crash, `OverflowError`.
- The exception messages and assertion texts are not modelled. A crash records the exception class, the expression that raised and the record's index.
- Dedup.DropDuplicates: compares cells as JSON values. `1` and `1.0` are one real here, so they are equal as in pandas, but pandas also treats `True` as equal to `1` and `1.0` and matches None with NaN; those two cross-type equalities are not modelled.
- JSON numbers are reals: Python's int/float distinction (the source's default `0` is an int), NaN and infinities are not represented.
- Rows appended before a record raises are discarded, because the uncaught exception ends the script before any file is written.
- process_orders.py is not part of this model: it is a preview utility outside the normalising script.
