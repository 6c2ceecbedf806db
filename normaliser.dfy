/** The normalising loop of parse_orders.py: each input record is walked along
    `event_payload.order.*` with `.get` and flattened into rows for the five
    lists. A record the loop cannot handle raises, and the raise ends the run. */
module Normaliser {
  import opened Wrappers
  import opened JsonValues
  import opened Rows

  /** The exceptions the loop body can raise; the string names the expression. */
  datatype Fault =
    | AttributeError(receiver: string)  // `.get` called on something that is not a dict
    | TypeError(operand: string)        // iterating a non-iterable, or strptime given a non-string
    | OverflowError(operand: string)    // fromtimestamp raising outside (ValueError, TypeError)

  /** The run stopped at record `index` with `fault`. */
  datatype Crash = Crash(index: nat, fault: Fault)

  /** `datetime.fromtimestamp(float(s))` for a string `s`: a datetime, a
      ValueError or TypeError (caught by the source), or another exception
      such as OverflowError (not caught). */
  datatype Epoch = Converted(at: DateTime) | Invalid | OutOfRange

  /** The two library calls of the timestamp handling, kept abstract:
      `strptime(s, "%Y-%m-%dT%H:%M:%S.%f")` (None for a ValueError) and the
      local-time epoch conversion. */
  datatype DateParsers = DateParsers(strptime: string -> Option<DateTime>, fromTimestamp: string -> Epoch)

  /** `v` as the receiver of a `.get` call: a dict, or AttributeError. */
  function AsDict(v: Json, receiver: string): Result<map<string, Json>, Fault> {
    if v.JObject? then Success(v.fields) else Failure(AttributeError(receiver))
  }

  /** `for x in v: x.get(...)` for a `v` that is not a list: an empty string
      or dict gives no iterations, a non-empty one hands a str to `.get`, and
      None, a bool or a number is not iterable. */
  function IterationFault(v: Json, operand: string): Option<Fault>
    requires !v.JArray?
  {
    match v
    case JString(s) => if s == "" then None else Some(AttributeError(operand))
    case JObject(m) => if m == map[] then None else Some(AttributeError(operand))
    case _ => Some(TypeError(operand))
  }

  /** `record.get("event_payload", {}).get("order", {})`, as the receiver of the `.get` calls that follow. */
  function OrderOf(record: Json): Result<map<string, Json>, Fault> {
    var envelope :- AsDict(record, "record");
    var payload :- AsDict(Get(envelope, "event_payload", EmptyObject), "event_payload");
    AsDict(Get(payload, "order", EmptyObject), "order")
  }

  /** The order_date handling: a falsy placedAt is kept as it is; otherwise
      the fixed-format parse, then the epoch conversion, then None. A truthy
      value that is not a string makes strptime raise TypeError, which the
      outer `except ValueError` does not catch. */
  function OrderDate(placedAt: Json, p: DateParsers): (r: Result<DateCell, Fault>)
    ensures !Truthy(placedAt) ==> r == Success(Raw(placedAt))
    ensures Truthy(placedAt) && r.Success? ==> r.value.Stamp? || r.value == Raw(JNull)
    ensures Truthy(placedAt) ==> r != Success(Raw(placedAt))
    ensures Truthy(placedAt) && !placedAt.JString? ==> r.Failure?
  {
    if !Truthy(placedAt) then Success(Raw(placedAt))
    else if !placedAt.JString? then Failure(TypeError("placedAt"))
    else
      match p.strptime(placedAt.s)
      case Some(t) => Success(Stamp(t))
      case None =>
        match p.fromTimestamp(placedAt.s)
        case Converted(t) => Success(Stamp(t))
        case Invalid => Success(Raw(JNull))
        case OutOfRange => Failure(OverflowError("placedAt"))
  }

  /** The order header of one record. */
  function OrderHeader(order: map<string, Json>, p: DateParsers): Result<OrderRow, Fault> {
    var amounts :- AsDict(Get(order, "amounts", EmptyObject), "amounts");
    var orderDate :- OrderDate(Get(order, "placedAt", JNull), p);
    Success(OrderRow(Get(order, "orderId", JNull), Get(order, "customerReference", JNull), orderDate,
                     Get(amounts, "total", JNumber(0.0)), Get(order, "currency", JNull), Get(order, "source", JNull)))
  }

  /** The customer row of one record. */
  function CustomerRowOf(order: map<string, Json>): Result<CustomerRow, Fault> {
    var customer :- AsDict(Get(order, "customerDetails", EmptyObject), "customerDetails");
    Success(CustomerRow(Get(order, "customerReference", JNull), Get(customer, "firstName", JNull),
                        Get(customer, "lastName", JNull), Get(customer, "email", JNull)))
  }

  /** The row of one element of lineItems. */
  function ItemRowOf(orderId: Json, item: Json): Result<ItemRow, Fault> {
    var d :- AsDict(item, "lineItems element");
    var amounts :- AsDict(Get(d, "amounts", EmptyObject), "lineItems element amounts");
    Success(ItemRow(orderId, Get(d, "productId", JNull), Get(d, "variantId", JNull), Get(d, "sku", JNull),
                    Get(d, "quantity", JNull), Get(amounts, "subtotal", JNumber(0.0)), Get(amounts, "total", JNumber(0.0))))
  }

  /** The rows of the elements of a lineItems list, stopping at the first that raises. */
  function ItemRows(orderId: Json, items: seq<Json>): (r: Result<seq<ItemRow>, Fault>)
    ensures r.Success? ==> |r.value| == |items|
    decreases |items|
  {
    if items == [] then Success([])
    else
      var rows :- ItemRows(orderId, items[..|items| - 1]);
      var row :- ItemRowOf(orderId, items[|items| - 1]);
      Success(rows + [row])
  }

  /** The rows of `for item in order.get("lineItems", [])`. */
  function LineItemRows(orderId: Json, lineItems: Json): Result<seq<ItemRow>, Fault> {
    if lineItems.JArray? then ItemRows(orderId, lineItems.items)
    else
      match IterationFault(lineItems, "lineItems")
      case None => Success([])
      case Some(f) => Failure(f)
  }

  /** The row of one element of appliedDiscounts. */
  function DiscountRowOf(orderId: Json, discount: Json): Result<DiscountRow, Fault> {
    var d :- AsDict(discount, "appliedDiscounts element");
    Success(DiscountRow(orderId, Get(d, "code", JNull), Get(d, "type", JNull), Get(d, "value", JNull)))
  }

  /** The rows of the elements of an appliedDiscounts list, stopping at the first that raises. */
  function DiscountRows(orderId: Json, discounts: seq<Json>): (r: Result<seq<DiscountRow>, Fault>)
    ensures r.Success? ==> |r.value| == |discounts|
    decreases |discounts|
  {
    if discounts == [] then Success([])
    else
      var rows :- DiscountRows(orderId, discounts[..|discounts| - 1]);
      var row :- DiscountRowOf(orderId, discounts[|discounts| - 1]);
      Success(rows + [row])
  }

  /** The rows of `if applied_discounts: for discount in applied_discounts`. */
  function AppliedDiscountRows(orderId: Json, applied: Json): Result<seq<DiscountRow>, Fault> {
    if !Truthy(applied) then Success([])
    else if applied.JArray? then DiscountRows(orderId, applied.items)
    else
      match IterationFault(applied, "appliedDiscounts")
      case None => Success([])
      case Some(f) => Failure(f)
  }

  /** The shipping row of one record. */
  function ShippingRowOf(orderId: Json, order: map<string, Json>): Result<ShippingRow, Fault> {
    var details :- AsDict(Get(order, "shippingDetails", EmptyObject), "shippingDetails");
    var address :- AsDict(Get(details, "address", EmptyObject), "address");
    Success(ShippingRow(orderId, Get(address, "city", JNull), Get(address, "country", JNull),
                        Get(address, "postcode", JNull), Get(address, "line1", JNull), Get(address, "line2", JNull)))
  }

  /** One pass of the loop body: the rows of one record, or what it raises. */
  function NormaliseRecord(record: Json, p: DateParsers): Result<RecordRows, Fault> {
    var order :- OrderOf(record);
    var header :- OrderHeader(order, p);
    var customer :- CustomerRowOf(order);
    var items :- LineItemRows(header.orderId, Get(order, "lineItems", EmptyList));
    var discounts :- AppliedDiscountRows(header.orderId, Get(order, "appliedDiscounts", EmptyList));
    var shipping :- ShippingRowOf(header.orderId, order);
    Success(RecordRows(header, customer, items, discounts, shipping))
  }

  /** `for record in records:` with the loop body `body`: the five lists
      after the loop, or the first record whose pass raises. */
  function Loop(records: seq<Json>, body: Json -> Result<RecordRows, Fault>): Result<Tables, Crash>
    decreases |records|
  {
    if records == [] then Success(NoTables)
    else
      var before :- Loop(records[..|records| - 1], body);
      match body(records[|records| - 1])
      case Failure(f) => Failure(Crash(|records| - 1, f))
      case Success(rows) => Success(before.Add(rows))
  }

  /** The loop body of parse_orders.py, as a function of the record. */
  function Body(p: DateParsers): Json -> Result<RecordRows, Fault> {
    record => NormaliseRecord(record, p)
  }

  /** The five lists after the loop of parse_orders.py has run over `records`, or the first crash. */
  function Normalise(records: seq<Json>, p: DateParsers): Result<Tables, Crash> {
    Loop(records, Body(p))
  }

  /** Once a prefix of the records has crashed, the whole loop has crashed the same way. */
  lemma {:induction false} CrashPersists(records: seq<Json>, k: nat, body: Json -> Result<RecordRows, Fault>)
    requires k <= |records| && Loop(records[..k], body).Failure?
    ensures Loop(records, body) == Loop(records[..k], body)
    decreases |records|
  {
    if k < |records| {
      var prefix := records[..|records| - 1];
      assert prefix[..k] == records[..k];
      CrashPersists(prefix, k, body);
    } else {
      assert records[..k] == records;
    }
  }

  /** A loop over records that goes through is the loop over all but the
      last, plus the last record's rows. */
  lemma LoopStep(records: seq<Json>, body: Json -> Result<RecordRows, Fault>)
    requires records != [] && Loop(records, body).Success?
    ensures var prefix := records[..|records| - 1];
      && Loop(prefix, body).Success?
      && body(records[|records| - 1]).Success?
      && Loop(records, body).value == Loop(prefix, body).value.Add(body(records[|records| - 1]).value)
  {
  }

  /** One order, customer and shipping row per record. */
  lemma {:induction false} LoopSizes(records: seq<Json>, body: Json -> Result<RecordRows, Fault>, t: Tables)
    requires Loop(records, body) == Success(t)
    ensures |t.orders| == |records| && |t.customers| == |records| && |t.shipping| == |records|
    decreases |records|
  {
    if records != [] {
      LoopStep(records, body);
      LoopSizes(records[..|records| - 1], body, Loop(records[..|records| - 1], body).value);
    }
  }

  /** Order, customer and shipping row i are record i's rows. */
  lemma {:induction false} LoopAt(records: seq<Json>, body: Json -> Result<RecordRows, Fault>, t: Tables, i: int)
    requires Loop(records, body) == Success(t)
    requires 0 <= i < |records|
    ensures body(records[i]).Success?
    ensures i < |t.orders| && i < |t.customers| && i < |t.shipping|
    ensures var rows := body(records[i]).value;
      t.orders[i] == rows.order && t.customers[i] == rows.customer && t.shipping[i] == rows.shipping
    decreases |records|
  {
    var prefix := records[..|records| - 1];
    var before := Loop(prefix, body).value;
    LoopStep(records, body);
    LoopSizes(prefix, body, before);
    if i < |prefix| {
      LoopAt(prefix, body, before, i);
      assert prefix[i] == records[i];
    }
  }

  /** The loop goes through exactly when every pass does; otherwise it stops
      at the first record whose pass raises, with that exception. */
  lemma {:induction false} LoopStopsAtFirstCrash(records: seq<Json>, body: Json -> Result<RecordRows, Fault>)
    ensures Loop(records, body).Success? <==> forall i | 0 <= i < |records| :: body(records[i]).Success?
    ensures Loop(records, body).Failure? ==>
              var c := Loop(records, body).error;
              && c.index < |records|
              && body(records[c.index]) == Failure(c.fault)
              && forall i | 0 <= i < c.index :: body(records[i]).Success?
    decreases |records|
  {
    if records != [] {
      var prefix := records[..|records| - 1];
      LoopStopsAtFirstCrash(prefix, body);
      assert forall i | 0 <= i < |prefix| :: prefix[i] == records[i];
    }
  }

  /** The blocks `block(record)` of the records, one after another in record order. */
  function Blocks<T>(records: seq<Json>, block: Json -> seq<T>): seq<T>
    decreases |records|
  {
    if records == [] then [] else Blocks(records[..|records| - 1], block) + block(records[|records| - 1])
  }

  /** When each pass's item and discount rows are `items(record)` and
      `discounts(record)`, the item and discount lists after the loop are
      those blocks, record by record in input order. */
  lemma {:induction false} LoopChildRows(records: seq<Json>, body: Json -> Result<RecordRows, Fault>, t: Tables,
                                         items: Json -> seq<ItemRow>, discounts: Json -> seq<DiscountRow>)
    requires Loop(records, body) == Success(t)
    requires forall i | 0 <= i < |records| :: body(records[i]).Success? ==>
               body(records[i]).value.items == items(records[i]) && body(records[i]).value.discounts == discounts(records[i])
    ensures t.orderItems == Blocks(records, items) && t.discounts == Blocks(records, discounts)
    decreases |records|
  {
    if records != [] {
      var prefix := records[..|records| - 1];
      LoopStep(records, body);
      assert forall i | 0 <= i < |prefix| :: prefix[i] == records[i];
      LoopChildRows(prefix, body, Loop(prefix, body).value, items, discounts);
    }
  }

  /** The item, discount and shipping rows of a pass carry its order row's order_id. */
  predicate CarriesOrderId(rows: RecordRows) {
    && (forall item | item in rows.items :: item.orderId == rows.order.orderId)
    && (forall discount | discount in rows.discounts :: discount.orderId == rows.order.orderId)
    && rows.shipping.orderId == rows.order.orderId
  }

  /** Every item and discount row carries the order_id of some order row,
      and shipping row i carries order row i's. */
  predicate ReferencesOrders(t: Tables) {
    && (forall j | 0 <= j < |t.orderItems| :: exists i | 0 <= i < |t.orders| :: t.orderItems[j].orderId == t.orders[i].orderId)
    && (forall j | 0 <= j < |t.discounts| :: exists i | 0 <= i < |t.orders| :: t.discounts[j].orderId == t.orders[i].orderId)
    && |t.shipping| == |t.orders|
    && forall i | 0 <= i < |t.orders| :: t.shipping[i].orderId == t.orders[i].orderId
  }

  /** When every pass's child rows carry its order_id, every item and
      discount row of the loop carries the order_id of some order row, and
      shipping row i carries order row i's. */
  lemma {:induction false} LoopKeepsOrderIds(records: seq<Json>, body: Json -> Result<RecordRows, Fault>, t: Tables)
    requires Loop(records, body) == Success(t)
    requires forall i | 0 <= i < |records| :: body(records[i]).Success? ==> CarriesOrderId(body(records[i]).value)
    ensures ReferencesOrders(t)
    decreases |records|
  {
    if records != [] {
      var prefix := records[..|records| - 1];
      var last := records[|records| - 1];
      LoopStep(records, body);
      var before := Loop(prefix, body).value;
      var rows := body(last).value;
      assert CarriesOrderId(rows);
      assert forall i | 0 <= i < |prefix| :: prefix[i] == records[i];
      LoopKeepsOrderIds(prefix, body, before);
      var n := |before.orders|;
      assert t.orders[n] == rows.order;
      forall j | 0 <= j < |t.orderItems| ensures exists i | 0 <= i < |t.orders| :: t.orderItems[j].orderId == t.orders[i].orderId {
        if j < |before.orderItems| {
          var i :| 0 <= i < |before.orders| && before.orderItems[j].orderId == before.orders[i].orderId;
          assert t.orders[i] == before.orders[i];
        } else {
          assert t.orderItems[j] == rows.items[j - |before.orderItems|];
        }
      }
      forall j | 0 <= j < |t.discounts| ensures exists i | 0 <= i < |t.orders| :: t.discounts[j].orderId == t.orders[i].orderId {
        if j < |before.discounts| {
          var i :| 0 <= i < |before.orders| && before.discounts[j].orderId == before.orders[i].orderId;
          assert t.orders[i] == before.orders[i];
        } else {
          assert t.discounts[j] == rows.discounts[j - |before.discounts|];
        }
      }
    }
  }

  /** ItemRows on one more element, in terms of ItemRows on the elements before it. */
  lemma ItemRowsExtend(orderId: Json, items: seq<Json>, j: nat)
    requires j < |items|
    ensures ItemRows(orderId, items[..j + 1]) ==
              match ItemRows(orderId, items[..j])
              case Failure(f) => Failure(f)
              case Success(rows) =>
                match ItemRowOf(orderId, items[j])
                case Failure(f) => Failure(f)
                case Success(row) => Success(rows + [row])
  {
    assert items[..j + 1][..j] == items[..j];
  }

  lemma {:induction false} ItemFaultPersists(orderId: Json, items: seq<Json>, k: nat)
    requires k <= |items| && ItemRows(orderId, items[..k]).Failure?
    ensures ItemRows(orderId, items) == ItemRows(orderId, items[..k])
    decreases |items|
  {
    if k < |items| {
      var prefix := items[..|items| - 1];
      assert prefix[..k] == items[..k];
      ItemFaultPersists(orderId, prefix, k);
    } else {
      assert items[..k] == items;
    }
  }

  /** DiscountRows on one more element, in terms of DiscountRows on the elements before it. */
  lemma DiscountRowsExtend(orderId: Json, discounts: seq<Json>, j: nat)
    requires j < |discounts|
    ensures DiscountRows(orderId, discounts[..j + 1]) ==
              match DiscountRows(orderId, discounts[..j])
              case Failure(f) => Failure(f)
              case Success(rows) =>
                match DiscountRowOf(orderId, discounts[j])
                case Failure(f) => Failure(f)
                case Success(row) => Success(rows + [row])
  {
    assert discounts[..j + 1][..j] == discounts[..j];
  }

  lemma {:induction false} DiscountFaultPersists(orderId: Json, discounts: seq<Json>, k: nat)
    requires k <= |discounts| && DiscountRows(orderId, discounts[..k]).Failure?
    ensures DiscountRows(orderId, discounts) == DiscountRows(orderId, discounts[..k])
    decreases |discounts|
  {
    if k < |discounts| {
      var prefix := discounts[..|discounts| - 1];
      assert prefix[..k] == discounts[..k];
      DiscountFaultPersists(orderId, prefix, k);
    } else {
      assert discounts[..k] == discounts;
    }
  }

  /** The order_date steps of the loop body: keep a falsy placedAt, else
      try the fixed format, then the epoch conversion, then None. */
  method ParseOrderDate(placedAt: Json, p: DateParsers) returns (r: Result<DateCell, Fault>)
    ensures r == OrderDate(placedAt, p)
  {
    var orderDate := Raw(placedAt);
    if Truthy(placedAt) {
      if !placedAt.JString? {
        return Failure(TypeError("placedAt"));
      }
      match p.strptime(placedAt.s)
      case Some(t) =>
        orderDate := Stamp(t);
      case None =>
        match p.fromTimestamp(placedAt.s)
        case Converted(t) =>
          orderDate := Stamp(t);
        case Invalid =>
          orderDate := Raw(JNull);
        case OutOfRange =>
          return Failure(OverflowError("placedAt"));
    }
    r := Success(orderDate);
  }

  /** The nested `for item in order.get("lineItems", [])` loop: the rows it appends, or what it raises. */
  method CollectItemRows(orderId: Json, lineItems: Json) returns (r: Result<seq<ItemRow>, Fault>)
    ensures r == LineItemRows(orderId, lineItems)
  {
    if !lineItems.JArray? {
      var fault := IterationFault(lineItems, "lineItems");
      if fault.Some? {
        return Failure(fault.value);
      }
      return Success([]);
    }
    var xs := lineItems.items;
    var rows: seq<ItemRow> := [];
    for j := 0 to |xs|
      invariant ItemRows(orderId, xs[..j]) == Success(rows)
    {
      ItemRowsExtend(orderId, xs, j);
      var item := ItemRowOf(orderId, xs[j]);
      if item.Failure? {
        ItemFaultPersists(orderId, xs, j + 1);
        return Failure(item.error);
      }
      rows := rows + [item.value];
    }
    assert xs[..|xs|] == xs;
    r := Success(rows);
  }

  /** The `if applied_discounts:` check and its nested loop: the rows it appends, or what it raises. */
  method CollectDiscountRows(orderId: Json, applied: Json) returns (r: Result<seq<DiscountRow>, Fault>)
    ensures r == AppliedDiscountRows(orderId, applied)
  {
    if !Truthy(applied) {
      return Success([]);
    }
    if !applied.JArray? {
      var fault := IterationFault(applied, "appliedDiscounts");
      if fault.Some? {
        return Failure(fault.value);
      }
      return Success([]);
    }
    var xs := applied.items;
    var rows: seq<DiscountRow> := [];
    for j := 0 to |xs|
      invariant DiscountRows(orderId, xs[..j]) == Success(rows)
    {
      DiscountRowsExtend(orderId, xs, j);
      var discount := DiscountRowOf(orderId, xs[j]);
      if discount.Failure? {
        DiscountFaultPersists(orderId, xs, j + 1);
        return Failure(discount.error);
      }
      rows := rows + [discount.value];
    }
    assert xs[..|xs|] == xs;
    r := Success(rows);
  }

  /** One pass of the loop body over `record`. */
  method NormaliseOne(record: Json, p: DateParsers) returns (r: Result<RecordRows, Fault>)
    ensures r == NormaliseRecord(record, p)
  {
    var order :- OrderOf(record);
    var orderId := Get(order, "orderId", JNull);
    var amounts :- AsDict(Get(order, "amounts", EmptyObject), "amounts");
    var orderDate :- ParseOrderDate(Get(order, "placedAt", JNull), p);
    var orderRow := OrderRow(orderId, Get(order, "customerReference", JNull), orderDate,
                             Get(amounts, "total", JNumber(0.0)), Get(order, "currency", JNull), Get(order, "source", JNull));
    assert OrderHeader(order, p) == Success(orderRow);
    var customer :- CustomerRowOf(order);
    var items :- CollectItemRows(orderId, Get(order, "lineItems", EmptyList));
    var discounts :- CollectDiscountRows(orderId, Get(order, "appliedDiscounts", EmptyList));
    var shipping :- ShippingRowOf(orderId, order);
    r := Success(RecordRows(orderRow, customer, items, discounts, shipping));
  }

  /** The loop of parse_orders.py over the loaded records, appending each
      record's rows to the five lists; a raise inside the body ends the run. */
  method NormaliseOrders(records: seq<Json>, p: DateParsers) returns (result: Result<Tables, Crash>)
    ensures result == Normalise(records, p)
  {
    var orders: seq<OrderRow> := [];
    var customers: seq<CustomerRow> := [];
    var orderItems: seq<ItemRow> := [];
    var discounts: seq<DiscountRow> := [];
    var shippingDetails: seq<ShippingRow> := [];
    for i := 0 to |records|
      invariant Normalise(records[..i], p) == Success(Tables(orders, customers, orderItems, discounts, shippingDetails))
    {
      assert records[..i + 1][..i] == records[..i];
      var rows := NormaliseOne(records[i], p);
      if rows.Failure? {
        CrashPersists(records, i + 1, Body(p));
        return Failure(Crash(i, rows.error));
      }
      orders := orders + [rows.value.order];
      customers := customers + [rows.value.customer];
      orderItems := orderItems + rows.value.items;
      discounts := discounts + rows.value.discounts;
      shippingDetails := shippingDetails + [rows.value.shipping];
    }
    assert records[..|records|] == records;
    result := Success(Tables(orders, customers, orderItems, discounts, shippingDetails));
  }
}
