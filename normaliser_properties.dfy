/** What the normalising loop promises, stated against path queries on the
    input records rather than against the `.get` chains it is written with. */
module NormaliserProperties {
  import opened Wrappers
  import opened JsonValues
  import opened Rows
  import opened Normaliser

  /** The value at `path` below `v`, or `default` when there is none there. */
  function LookupOr(v: Json, path: seq<string>, default: Json): Json {
    Lookup(v, path).GetOr(default)
  }

  /** The value at `path` is a dict or is not there at all (so `.get(..., {})` yields a dict). */
  predicate DictOrMissing(v: Json, path: seq<string>) {
    match Lookup(v, path)
    case None => true
    case Some(x) => x.JObject?
  }

  const Order: seq<string> := ["event_payload", "order"]

  /** A placedAt value the timestamp handling gets through without raising. */
  predicate DateHandled(placedAt: Json, p: DateParsers) {
    !Truthy(placedAt) ||
    (placedAt.JString? && !(p.strptime(placedAt.s).None? && p.fromTimestamp(placedAt.s).OutOfRange?))
  }

  /** A lineItems value the item loop gets through without raising. */
  predicate LineItemsHandled(lineItems: Json) {
    || lineItems == JString("")
    || lineItems == EmptyObject
    || (lineItems.JArray? &&
        forall x | x in lineItems.items :: x.JObject? && DictOrMissing(x, ["amounts"]))
  }

  /** An appliedDiscounts value the discount loop gets through without raising. */
  predicate DiscountsHandled(applied: Json) {
    !Truthy(applied) || (applied.JArray? && forall x | x in applied.items :: x.JObject?)
  }

  /** The records the loop body handles without raising. */
  predicate Handled(record: Json, p: DateParsers) {
    && record.JObject?
    && DictOrMissing(record, ["event_payload"])
    && DictOrMissing(record, Order)
    && DictOrMissing(record, Order + ["amounts"])
    && DateHandled(LookupOr(record, Order + ["placedAt"], JNull), p)
    && DictOrMissing(record, Order + ["customerDetails"])
    && LineItemsHandled(LookupOr(record, Order + ["lineItems"], EmptyList))
    && DiscountsHandled(LookupOr(record, Order + ["appliedDiscounts"], EmptyList))
    && DictOrMissing(record, Order + ["shippingDetails"])
    && DictOrMissing(record, Order + ["shippingDetails", "address"])
  }

  lemma LookupCons(v: Json, key: string, rest: seq<string>)
    ensures Lookup(v, [key] + rest) ==
              if v.JObject? && key in v.fields then Lookup(v.fields[key], rest) else None
  {
    assert ([key] + rest)[0] == key && ([key] + rest)[1..] == rest;
  }

  /** `d.get(key, default)` is the lookup of [key] below the dict, with that default. */
  lemma GetIsLookup(d: map<string, Json>, key: string, default: Json)
    ensures Get(d, key, default) == LookupOr(JObject(d), [key], default)
  {
    LookupCons(JObject(d), key, []);
    assert [key] + [] == [key];
  }

  /** `d.get(outer, {}).get(inner, default)` is the lookup of [outer, inner] below the dict. */
  lemma GetGetIsLookup(d: map<string, Json>, outer: string, inner: string, default: Json)
    requires Get(d, outer, EmptyObject).JObject?
    ensures Get(Get(d, outer, EmptyObject).fields, inner, default) == LookupOr(JObject(d), [outer, inner], default)
  {
    assert [outer, inner] == [outer] + [inner];
    LookupCons(JObject(d), outer, [inner]);
    GetIsLookup(Get(d, outer, EmptyObject).fields, inner, default);
    if outer !in d {
      LookupCons(EmptyObject, inner, []);
    }
  }

  /** Below a record that reaches the order dict, every non-empty path under
      the order is looked up in that dict. */
  lemma LookupInOrder(record: Json, rest: seq<string>)
    requires OrderOf(record).Success? && rest != []
    ensures Lookup(record, Order + rest) == Lookup(JObject(OrderOf(record).value), rest)
  {
    var envelope := record.fields;
    var payload := Get(envelope, "event_payload", EmptyObject);
    assert Order + rest == ["event_payload"] + (["order"] + rest);
    LookupCons(record, "event_payload", ["order"] + rest);
    LookupCons(payload, "order", rest);
    LookupCons(JObject(OrderOf(record).value), rest[0], rest[1..]);
    assert [rest[0]] + rest[1..] == rest;
    if "event_payload" !in envelope || "order" !in payload.fields {
      assert OrderOf(record).value == map[];
    }
  }

  /** The parts a successful pass of the loop body is made of. */
  lemma RecordParts(record: Json, p: DateParsers)
    requires NormaliseRecord(record, p).Success?
    ensures OrderOf(record).Success?
    ensures var order := OrderOf(record).value;
            var rows := NormaliseRecord(record, p).value;
            && OrderHeader(order, p) == Success(rows.order)
            && CustomerRowOf(order) == Success(rows.customer)
            && LineItemRows(rows.order.orderId, Get(order, "lineItems", EmptyList)) == Success(rows.items)
            && AppliedDiscountRows(rows.order.orderId, Get(order, "appliedDiscounts", EmptyList)) == Success(rows.discounts)
            && ShippingRowOf(rows.order.orderId, order) == Success(rows.shipping)
  {
  }

  /** The order row holds the values found under event_payload.order, with
      total_price defaulting to 0 and everything else to None. */
  lemma OrderRowFollowsPaths(record: Json, p: DateParsers)
    requires NormaliseRecord(record, p).Success?
    ensures var row := NormaliseRecord(record, p).value.order;
      && row.orderId == LookupOr(record, Order + ["orderId"], JNull)
      && row.customerReference == LookupOr(record, Order + ["customerReference"], JNull)
      && row.totalPrice == LookupOr(record, Order + ["amounts", "total"], JNumber(0.0))
      && row.currency == LookupOr(record, Order + ["currency"], JNull)
      && row.source == LookupOr(record, Order + ["source"], JNull)
      && OrderDate(LookupOr(record, Order + ["placedAt"], JNull), p) == Success(row.orderDate)
  {
    RecordParts(record, p);
    var order := OrderOf(record).value;
    OrderFieldIsLookup(record, "orderId", JNull);
    OrderFieldIsLookup(record, "customerReference", JNull);
    OrderFieldIsLookup(record, "currency", JNull);
    OrderFieldIsLookup(record, "source", JNull);
    OrderFieldIsLookup(record, "placedAt", JNull);
    LookupInOrder(record, ["amounts", "total"]);
    GetGetIsLookup(order, "amounts", "total", JNumber(0.0));
  }

  lemma OrderFieldIsLookup(record: Json, key: string, default: Json)
    requires OrderOf(record).Success?
    ensures Get(OrderOf(record).value, key, default) == LookupOr(record, Order + [key], default)
  {
    LookupInOrder(record, [key]);
    GetIsLookup(OrderOf(record).value, key, default);
  }

  /** `d.get(a, {}).get(b, {}).get(c, default)` is the lookup of [a, b, c] below the dict. */
  lemma GetGetGetIsLookup(d: map<string, Json>, a: string, b: string, c: string, default: Json)
    requires Get(d, a, EmptyObject).JObject?
    requires Get(Get(d, a, EmptyObject).fields, b, EmptyObject).JObject?
    ensures Get(Get(Get(d, a, EmptyObject).fields, b, EmptyObject).fields, c, default) ==
            LookupOr(JObject(d), [a, b, c], default)
  {
    var inner := Get(d, a, EmptyObject);
    assert [a, b, c] == [a] + [b, c];
    LookupCons(JObject(d), a, [b, c]);
    GetGetIsLookup(inner.fields, b, c, default);
    if a !in d {
      LookupCons(EmptyObject, b, [c]);
      assert [b, c] == [b] + [c];
    }
  }

  /** The customer row holds customerReference and the three customerDetails fields, None when absent. */
  lemma CustomerRowFollowsPaths(record: Json, p: DateParsers)
    requires NormaliseRecord(record, p).Success?
    ensures var row := NormaliseRecord(record, p).value.customer;
      && row.customerReference == LookupOr(record, Order + ["customerReference"], JNull)
      && row.firstName == LookupOr(record, Order + ["customerDetails", "firstName"], JNull)
      && row.lastName == LookupOr(record, Order + ["customerDetails", "lastName"], JNull)
      && row.email == LookupOr(record, Order + ["customerDetails", "email"], JNull)
  {
    RecordParts(record, p);
    var order := OrderOf(record).value;
    OrderFieldIsLookup(record, "customerReference", JNull);
    forall key | key == "firstName" || key == "lastName" || key == "email"
      ensures Get(Get(order, "customerDetails", EmptyObject).fields, key, JNull) ==
              LookupOr(record, Order + ["customerDetails", key], JNull)
    {
      LookupInOrder(record, ["customerDetails", key]);
      GetGetIsLookup(order, "customerDetails", key, JNull);
    }
  }

  /** The shipping row carries the order's order_id and the five address
      fields, each None when shippingDetails, address or the field is absent. */
  lemma ShippingRowFollowsPaths(record: Json, p: DateParsers)
    requires NormaliseRecord(record, p).Success?
    ensures var rows := NormaliseRecord(record, p).value;
      && rows.shipping.orderId == rows.order.orderId
      && rows.shipping.city == LookupOr(record, Order + ["shippingDetails", "address", "city"], JNull)
      && rows.shipping.country == LookupOr(record, Order + ["shippingDetails", "address", "country"], JNull)
      && rows.shipping.postcode == LookupOr(record, Order + ["shippingDetails", "address", "postcode"], JNull)
      && rows.shipping.addressLine1 == LookupOr(record, Order + ["shippingDetails", "address", "line1"], JNull)
      && rows.shipping.addressLine2 == LookupOr(record, Order + ["shippingDetails", "address", "line2"], JNull)
  {
    RecordParts(record, p);
    ShippingFieldIsLookup(record, "city");
    ShippingFieldIsLookup(record, "country");
    ShippingFieldIsLookup(record, "postcode");
    ShippingFieldIsLookup(record, "line1");
    ShippingFieldIsLookup(record, "line2");
  }

  /** A field read from the shipping address is the path query for it. */
  lemma ShippingFieldIsLookup(record: Json, key: string)
    requires OrderOf(record).Success? && ShippingRowOf(JNull, OrderOf(record).value).Success?
    ensures var order := OrderOf(record).value;
            Get(Get(Get(order, "shippingDetails", EmptyObject).fields, "address", EmptyObject).fields, key, JNull) ==
            LookupOr(record, Order + ["shippingDetails", "address", key], JNull)
  {
    LookupInOrder(record, ["shippingDetails", "address", key]);
    GetGetGetIsLookup(OrderOf(record).value, "shippingDetails", "address", key, JNull);
  }

  /** Nothing lies below a path that leads nowhere. */
  lemma {:induction false} LookupBeyondMissing(v: Json, path: seq<string>, more: seq<string>)
    requires Lookup(v, path).None?
    ensures Lookup(v, path + more).None?
    decreases |path|
  {
    if path != [] && v.JObject? && path[0] in v.fields {
      assert (path + more)[1..] == path[1..] + more;
      LookupBeyondMissing(v.fields[path[0]], path[1..], more);
    }
  }

  /** With no address under the order, every address field's path query finds nothing. */
  lemma AddressFieldsMissing(record: Json)
    requires Lookup(record, Order + ["shippingDetails", "address"]).None?
    ensures forall key | key in ["city", "country", "postcode", "line1", "line2"] ::
              LookupOr(record, Order + ["shippingDetails", "address", key], JNull) == JNull
  {
    var address := Order + ["shippingDetails", "address"];
    forall key | key in ["city", "country", "postcode", "line1", "line2"]
      ensures LookupOr(record, Order + ["shippingDetails", "address", key], JNull) == JNull
    {
      LookupBeyondMissing(record, address, [key]);
      assert address + [key] == Order + ["shippingDetails", "address", key];
    }
  }

  /** A record whose order has no shipping address (no shippingDetails, or
      no address in it) still gives a shipping row: the order's order_id and
      every address field None. */
  lemma ShippingWithoutAddress(record: Json, p: DateParsers)
    requires NormaliseRecord(record, p).Success?
    requires Lookup(record, Order + ["shippingDetails", "address"]).None?
    ensures var rows := NormaliseRecord(record, p).value;
      rows.shipping == ShippingRow(rows.order.orderId, JNull, JNull, JNull, JNull, JNull)
  {
    ShippingRowFollowsPaths(record, p);
    AddressFieldsMissing(record);
  }


  /** One element of a lineItems list, flattened by path queries: None for an
      absent field, 0 for an absent subtotal or total. */
  function ItemByPaths(orderId: Json, item: Json): ItemRow {
    ItemRow(orderId, LookupOr(item, ["productId"], JNull), LookupOr(item, ["variantId"], JNull),
            LookupOr(item, ["sku"], JNull), LookupOr(item, ["quantity"], JNull),
            LookupOr(item, ["amounts", "subtotal"], JNumber(0.0)), LookupOr(item, ["amounts", "total"], JNumber(0.0)))
  }

  /** One element of an appliedDiscounts list, flattened by path queries. */
  function DiscountByPaths(orderId: Json, discount: Json): DiscountRow {
    DiscountRow(orderId, LookupOr(discount, ["code"], JNull), LookupOr(discount, ["type"], JNull),
                LookupOr(discount, ["value"], JNull))
  }

  lemma ItemRowOfByPaths(orderId: Json, item: Json)
    ensures ItemRowOf(orderId, item).Success? <==> item.JObject? && DictOrMissing(item, ["amounts"])
    ensures ItemRowOf(orderId, item).Success? ==> ItemRowOf(orderId, item).value == ItemByPaths(orderId, item)
  {
    if item.JObject? {
      var d := item.fields;
      LookupCons(item, "amounts", []);
      assert ["amounts"] + [] == ["amounts"];
      GetIsLookup(d, "productId", JNull);
      GetIsLookup(d, "variantId", JNull);
      GetIsLookup(d, "sku", JNull);
      GetIsLookup(d, "quantity", JNull);
      if Get(d, "amounts", EmptyObject).JObject? {
        GetGetIsLookup(d, "amounts", "subtotal", JNumber(0.0));
        GetGetIsLookup(d, "amounts", "total", JNumber(0.0));
      }
    }
  }

  lemma DiscountRowOfByPaths(orderId: Json, discount: Json)
    ensures DiscountRowOf(orderId, discount).Success? <==> discount.JObject?
    ensures DiscountRowOf(orderId, discount).Success? ==> DiscountRowOf(orderId, discount).value == DiscountByPaths(orderId, discount)
  {
    if discount.JObject? {
      GetIsLookup(discount.fields, "code", JNull);
      GetIsLookup(discount.fields, "type", JNull);
      GetIsLookup(discount.fields, "value", JNull);
    }
  }

  /** ItemRows succeeds exactly when every element's row does, and then row j is element j's. */
  lemma {:induction false} ItemRowsAt(orderId: Json, items: seq<Json>)
    ensures ItemRows(orderId, items).Success? <==> forall j | 0 <= j < |items| :: ItemRowOf(orderId, items[j]).Success?
    ensures ItemRows(orderId, items).Success? ==>
              forall j | 0 <= j < |items| :: ItemRowOf(orderId, items[j]) == Success(ItemRows(orderId, items).value[j])
    decreases |items|
  {
    if items != [] {
      var prefix := items[..|items| - 1];
      ItemRowsAt(orderId, prefix);
      assert forall j | 0 <= j < |prefix| :: prefix[j] == items[j];
    }
  }

  /** DiscountRows succeeds exactly when every element's row does, and then row j is element j's. */
  lemma {:induction false} DiscountRowsAt(orderId: Json, discounts: seq<Json>)
    ensures DiscountRows(orderId, discounts).Success? <==> forall j | 0 <= j < |discounts| :: DiscountRowOf(orderId, discounts[j]).Success?
    ensures DiscountRows(orderId, discounts).Success? ==>
              forall j | 0 <= j < |discounts| :: DiscountRowOf(orderId, discounts[j]) == Success(DiscountRows(orderId, discounts).value[j])
    decreases |discounts|
  {
    if discounts != [] {
      var prefix := discounts[..|discounts| - 1];
      DiscountRowsAt(orderId, prefix);
      assert forall j | 0 <= j < |prefix| :: prefix[j] == discounts[j];
    }
  }

  /** One order-item row per element of lineItems (none when it is absent),
      each carrying the order's order_id and the element's fields. */
  lemma ItemRowsFollowLineItems(record: Json, p: DateParsers)
    requires NormaliseRecord(record, p).Success?
    ensures var rows := NormaliseRecord(record, p).value;
            var lineItems := LookupOr(record, Order + ["lineItems"], EmptyList);
      && |rows.items| == Length(lineItems)
      && forall j | 0 <= j < |rows.items| ::
           rows.items[j].orderId == rows.order.orderId && rows.items[j] == ItemByPaths(rows.order.orderId, lineItems.items[j])
  {
    RecordParts(record, p);
    var rows := NormaliseRecord(record, p).value;
    var order := OrderOf(record).value;
    OrderFieldIsLookup(record, "lineItems", EmptyList);
    var lineItems := Get(order, "lineItems", EmptyList);
    if lineItems.JArray? {
      ItemRowsAt(rows.order.orderId, lineItems.items);
      forall j | 0 <= j < |rows.items| ensures rows.items[j] == ItemByPaths(rows.order.orderId, lineItems.items[j]) {
        ItemRowOfByPaths(rows.order.orderId, lineItems.items[j]);
      }
    }
  }

  /** One discount row per element of appliedDiscounts when it is truthy and
      none when it is absent, empty or null, each carrying the order's order_id. */
  lemma DiscountRowsFollowAppliedDiscounts(record: Json, p: DateParsers)
    requires NormaliseRecord(record, p).Success?
    ensures var rows := NormaliseRecord(record, p).value;
            var applied := LookupOr(record, Order + ["appliedDiscounts"], EmptyList);
      // The first conjunct follows from the second, since a falsy list is
      // empty; it is kept to state the `if applied_discounts:` check.
      && |rows.discounts| == (if Truthy(applied) then Length(applied) else 0)
      && |rows.discounts| == Length(applied)
      && forall j | 0 <= j < |rows.discounts| ::
           rows.discounts[j].orderId == rows.order.orderId && rows.discounts[j] == DiscountByPaths(rows.order.orderId, applied.items[j])
  {
    RecordParts(record, p);
    var rows := NormaliseRecord(record, p).value;
    var order := OrderOf(record).value;
    OrderFieldIsLookup(record, "appliedDiscounts", EmptyList);
    var applied := Get(order, "appliedDiscounts", EmptyList);
    if Truthy(applied) && applied.JArray? {
      DiscountRowsAt(rows.order.orderId, applied.items);
      forall j | 0 <= j < |rows.discounts| ensures rows.discounts[j] == DiscountByPaths(rows.order.orderId, applied.items[j]) {
        DiscountRowOfByPaths(rows.order.orderId, applied.items[j]);
      }
    }
  }

  /** `.get(key, {})` on a dict yields a dict exactly when the value at [key] is a dict or is absent. */
  lemma DictOrMissingIsGet(d: map<string, Json>, key: string)
    ensures DictOrMissing(JObject(d), [key]) <==> Get(d, key, EmptyObject).JObject?
  {
    LookupCons(JObject(d), key, []);
    assert [key] + [] == [key];
  }

  /** The same for the second step of a two-step `.get(..., {})` chain. */
  lemma DictOrMissingTwoSteps(d: map<string, Json>, outer: string, inner: string)
    requires Get(d, outer, EmptyObject).JObject?
    ensures DictOrMissing(JObject(d), [outer, inner]) <==> Get(Get(d, outer, EmptyObject).fields, inner, EmptyObject).JObject?
  {
    assert [outer, inner] == [outer] + [inner];
    LookupCons(JObject(d), outer, [inner]);
    DictOrMissingIsGet(Get(d, outer, EmptyObject).fields, inner);
    if outer !in d {
      LookupCons(EmptyObject, inner, []);
      assert [inner] + [] == [inner];
    }
  }

  lemma OrderOfSucceedsIff(record: Json)
    ensures OrderOf(record).Success? <==>
              record.JObject? && DictOrMissing(record, ["event_payload"]) && DictOrMissing(record, Order)
  {
    if record.JObject? {
      DictOrMissingIsGet(record.fields, "event_payload");
      if Get(record.fields, "event_payload", EmptyObject).JObject? {
        DictOrMissingTwoSteps(record.fields, "event_payload", "order");
      }
    }
  }

  lemma DateHandledIff(placedAt: Json, p: DateParsers)
    ensures OrderDate(placedAt, p).Success? <==> DateHandled(placedAt, p)
  {
  }

  lemma LineItemsHandledIff(orderId: Json, lineItems: Json)
    ensures LineItemRows(orderId, lineItems).Success? <==> LineItemsHandled(lineItems)
  {
    if lineItems.JArray? {
      var xs := lineItems.items;
      ItemRowsAt(orderId, xs);
      forall j | 0 <= j < |xs| ensures ItemRowOf(orderId, xs[j]).Success? <==> xs[j].JObject? && DictOrMissing(xs[j], ["amounts"]) {
        ItemRowOfByPaths(orderId, xs[j]);
      }
    }
  }

  lemma DiscountsHandledIff(orderId: Json, applied: Json)
    ensures AppliedDiscountRows(orderId, applied).Success? <==> DiscountsHandled(applied)
  {
    if Truthy(applied) && applied.JArray? {
      var xs := applied.items;
      DiscountRowsAt(orderId, xs);
      forall j | 0 <= j < |xs| ensures DiscountRowOf(orderId, xs[j]).Success? <==> xs[j].JObject? {
        DiscountRowOfByPaths(orderId, xs[j]);
      }
    }
  }

  /** A pass of the loop body succeeds exactly when each of its steps does. */
  lemma RecordSucceedsIffSteps(record: Json, p: DateParsers)
    requires OrderOf(record).Success?
    ensures var order := OrderOf(record).value;
            var orderId := Get(order, "orderId", JNull);
      NormaliseRecord(record, p).Success? <==>
        && Get(order, "amounts", EmptyObject).JObject?
        && OrderDate(Get(order, "placedAt", JNull), p).Success?
        && Get(order, "customerDetails", EmptyObject).JObject?
        && LineItemRows(orderId, Get(order, "lineItems", EmptyList)).Success?
        && AppliedDiscountRows(orderId, Get(order, "appliedDiscounts", EmptyList)).Success?
        && Get(order, "shippingDetails", EmptyObject).JObject?
        && Get(Get(order, "shippingDetails", EmptyObject).fields, "address", EmptyObject).JObject?
  {
    var order := OrderOf(record).value;
    if Get(order, "amounts", EmptyObject).JObject? && OrderDate(Get(order, "placedAt", JNull), p).Success? {
      assert OrderHeader(order, p).Success?;
      assert OrderHeader(order, p).value.orderId == Get(order, "orderId", JNull);
    }
  }

  /** The loop body raises on a record exactly when one of the `.get`
      receivers on its path is not a dict, lineItems or appliedDiscounts
      cannot be iterated into dicts, or a truthy placedAt is not a string or
      overflows the epoch conversion. */
  lemma NormaliseRecordSucceedsIff(record: Json, p: DateParsers)
    ensures NormaliseRecord(record, p).Success? <==> Handled(record, p)
  {
    OrderOfSucceedsIff(record);
    if OrderOf(record).Success? {
      var order := OrderOf(record).value;
      var orderId := Get(order, "orderId", JNull);
      RecordSucceedsIffSteps(record, p);
      LookupInOrder(record, ["amounts"]);
      LookupInOrder(record, ["customerDetails"]);
      LookupInOrder(record, ["shippingDetails"]);
      LookupInOrder(record, ["shippingDetails", "address"]);
      DictOrMissingIsGet(order, "amounts");
      DictOrMissingIsGet(order, "customerDetails");
      DictOrMissingIsGet(order, "shippingDetails");
      if Get(order, "shippingDetails", EmptyObject).JObject? {
        DictOrMissingTwoSteps(order, "shippingDetails", "address");
      }
      OrderFieldIsLookup(record, "placedAt", JNull);
      OrderFieldIsLookup(record, "lineItems", EmptyList);
      OrderFieldIsLookup(record, "appliedDiscounts", EmptyList);
      DateHandledIff(Get(order, "placedAt", JNull), p);
      LineItemsHandledIff(orderId, Get(order, "lineItems", EmptyList));
      DiscountsHandledIff(orderId, Get(order, "appliedDiscounts", EmptyList));
    }
  }

  /** The rows of a record with no order in it. */
  const DefaultRows: RecordRows :=
    RecordRows(
      OrderRow(JNull, JNull, Raw(JNull), JNumber(0.0), JNull, JNull),
      CustomerRow(JNull, JNull, JNull, JNull),
      [], [],
      ShippingRow(JNull, JNull, JNull, JNull, JNull, JNull))

  /** A record without event_payload, or whose event_payload has no order,
      still gives one order, one customer and one shipping row, every field
      None except total_price 0, and no item or discount rows. */
  lemma MissingOrderGivesDefaultRows(record: Json, p: DateParsers)
    requires record.JObject?
    requires "event_payload" !in record.fields ||
             (record.fields["event_payload"].JObject? && "order" !in record.fields["event_payload"].fields)
    ensures NormaliseRecord(record, p) == Success(DefaultRows)
  {
    assert OrderOf(record) == Success(map[]);
  }

  /** The number of lineItems elements over all records (0 where absent). */
  function LineItemCount(records: seq<Json>): nat
    decreases |records|
  {
    if records == [] then 0
    else LineItemCount(records[..|records| - 1]) + Length(LookupOr(records[|records| - 1], Order + ["lineItems"], EmptyList))
  }

  /** The number of appliedDiscounts elements over all records (0 where absent, empty or null). */
  function DiscountCount(records: seq<Json>): nat
    decreases |records|
  {
    if records == [] then 0
    else DiscountCount(records[..|records| - 1]) + Length(LookupOr(records[|records| - 1], Order + ["appliedDiscounts"], EmptyList))
  }

  /** A successful run over records is the run over all but the last, plus the last record's rows. */
  lemma NormaliseStep(records: seq<Json>, p: DateParsers)
    requires records != [] && Normalise(records, p).Success?
    ensures var prefix := records[..|records| - 1];
      && Normalise(prefix, p).Success?
      && NormaliseRecord(records[|records| - 1], p).Success?
      && Normalise(records, p).value == Normalise(prefix, p).value.Add(NormaliseRecord(records[|records| - 1], p).value)
  {
    LoopStep(records, Body(p));
  }

  /** A record's item rows by path queries: one per element of its lineItems
      list, none when lineItems is absent, "" or {}. */
  function RecordItemsByPaths(record: Json): seq<ItemRow> {
    var orderId := LookupOr(record, Order + ["orderId"], JNull);
    var lineItems := LookupOr(record, Order + ["lineItems"], EmptyList);
    if lineItems.JArray? then seq(|lineItems.items|, j requires 0 <= j < |lineItems.items| => ItemByPaths(orderId, lineItems.items[j]))
    else []
  }

  /** A record's discount rows by path queries: one per element of its
      appliedDiscounts list, none when it is absent or falsy. */
  function RecordDiscountsByPaths(record: Json): seq<DiscountRow> {
    var orderId := LookupOr(record, Order + ["orderId"], JNull);
    var applied := LookupOr(record, Order + ["appliedDiscounts"], EmptyList);
    if applied.JArray? then seq(|applied.items|, j requires 0 <= j < |applied.items| => DiscountByPaths(orderId, applied.items[j]))
    else []
  }

  /** The item and discount rows of a pass that goes through are its record's rows by path queries. */
  lemma RecordChildRowsByPaths(record: Json, p: DateParsers)
    requires NormaliseRecord(record, p).Success?
    ensures var rows := NormaliseRecord(record, p).value;
      rows.items == RecordItemsByPaths(record) && rows.discounts == RecordDiscountsByPaths(record)
  {
    OrderRowFollowsPaths(record, p);
    ItemRowsFollowLineItems(record, p);
    DiscountRowsFollowAppliedDiscounts(record, p);
  }

  /** After the loop, the order-items and discounts tables are each record's
      rows by path queries, record by record in input order. */
  lemma NormaliseChildRows(records: seq<Json>, p: DateParsers, t: Tables)
    requires Normalise(records, p) == Success(t)
    ensures t.orderItems == Blocks(records, RecordItemsByPaths)
    ensures t.discounts == Blocks(records, RecordDiscountsByPaths)
  {
    forall i | 0 <= i < |records| && NormaliseRecord(records[i], p).Success?
      ensures NormaliseRecord(records[i], p).value.items == RecordItemsByPaths(records[i])
      ensures NormaliseRecord(records[i], p).value.discounts == RecordDiscountsByPaths(records[i])
    {
      RecordChildRowsByPaths(records[i], p);
    }
    LoopChildRows(records, Body(p), t, RecordItemsByPaths, RecordDiscountsByPaths);
  }

  /** After the loop: one order, customer and shipping row per record, in
      input order; orders are not de-duplicated. */
  lemma NormaliseShape(records: seq<Json>, p: DateParsers, t: Tables)
    requires Normalise(records, p) == Success(t)
    ensures |t.orders| == |records| && |t.customers| == |records| && |t.shipping| == |records|
    ensures forall i | 0 <= i < |records| ::
              && NormaliseRecord(records[i], p).Success?
              && t.orders[i] == NormaliseRecord(records[i], p).value.order
              && t.customers[i] == NormaliseRecord(records[i], p).value.customer
              && t.shipping[i] == NormaliseRecord(records[i], p).value.shipping
  {
    LoopSizes(records, Body(p), t);
    forall i | 0 <= i < |records|
      ensures && NormaliseRecord(records[i], p).Success?
              && t.orders[i] == NormaliseRecord(records[i], p).value.order
              && t.customers[i] == NormaliseRecord(records[i], p).value.customer
              && t.shipping[i] == NormaliseRecord(records[i], p).value.shipping
    {
      LoopAt(records, Body(p), t, i);
    }
  }

  /** After the loop: one order, customer and shipping row per record, and
      as many item and discount rows as the records hold lineItems and
      appliedDiscounts elements. */
  lemma {:induction false} NormaliseCounts(records: seq<Json>, p: DateParsers, t: Tables)
    requires Normalise(records, p) == Success(t)
    ensures |t.orders| == |records| && |t.customers| == |records| && |t.shipping| == |records|
    ensures |t.orderItems| == LineItemCount(records) && |t.discounts| == DiscountCount(records)
    decreases |records|
  {
    LoopSizes(records, Body(p), t);
    if records != [] {
      var prefix := records[..|records| - 1];
      var last := records[|records| - 1];
      NormaliseStep(records, p);
      NormaliseCounts(prefix, p, Normalise(prefix, p).value);
      ItemRowsFollowLineItems(last, p);
      DiscountRowsFollowAppliedDiscounts(last, p);
    }
  }

  /** The run gets through the loop exactly when every record is handled;
      otherwise it stops at the first record that is not, with that record's fault. */
  lemma NormaliseStopsAtFirstCrash(records: seq<Json>, p: DateParsers)
    ensures Normalise(records, p).Success? <==> forall i | 0 <= i < |records| :: Handled(records[i], p)
    ensures Normalise(records, p).Failure? ==>
              var c := Normalise(records, p).error;
              && c.index < |records|
              && NormaliseRecord(records[c.index], p) == Failure(c.fault)
              && forall i | 0 <= i < c.index :: Handled(records[i], p)
  {
    LoopStopsAtFirstCrash(records, Body(p));
    forall i | 0 <= i < |records| ensures NormaliseRecord(records[i], p).Success? <==> Handled(records[i], p) {
      NormaliseRecordSucceedsIff(records[i], p);
    }
  }

  /** The item, discount and shipping rows of a record carry its order row's order_id. */
  lemma RecordCarriesOrderId(record: Json, p: DateParsers)
    requires NormaliseRecord(record, p).Success?
    ensures CarriesOrderId(NormaliseRecord(record, p).value)
  {
    var rows := NormaliseRecord(record, p).value;
    ItemRowsFollowLineItems(record, p);
    DiscountRowsFollowAppliedDiscounts(record, p);
    ShippingRowFollowsPaths(record, p);
    forall item | item in rows.items ensures item.orderId == rows.order.orderId {
      var j :| 0 <= j < |rows.items| && rows.items[j] == item;
    }
    forall discount | discount in rows.discounts ensures discount.orderId == rows.order.orderId {
      var j :| 0 <= j < |rows.discounts| && rows.discounts[j] == discount;
    }
  }

  /** RecordCarriesOrderId for every record, as the loop body sees it. */
  lemma EveryPassCarriesOrderId(records: seq<Json>, p: DateParsers)
    ensures forall i | 0 <= i < |records| :: Body(p)(records[i]).Success? ==> CarriesOrderId(Body(p)(records[i]).value)
  {
    forall i | 0 <= i < |records| && Body(p)(records[i]).Success?
      ensures CarriesOrderId(Body(p)(records[i]).value)
    {
      RecordCarriesOrderId(records[i], p);
    }
  }

  /** Every order-item and discount row carries the order_id of some order
      row, and shipping row i carries the order_id of order row i. */
  lemma ChildRowsReferenceOrders(records: seq<Json>, p: DateParsers, t: Tables)
    requires Normalise(records, p) == Success(t)
    ensures ReferencesOrders(t)
  {
    EveryPassCarriesOrderId(records, p);
    LoopKeepsOrderIds(records, Body(p), t);
  }

  /** Order row i and shipping row i hold the orderId found in record i. */
  lemma OrdersFollowRecords(records: seq<Json>, p: DateParsers, t: Tables)
    requires Normalise(records, p) == Success(t)
    ensures |t.orders| == |records| == |t.shipping|
    ensures forall i | 0 <= i < |records| ::
              && t.orders[i].orderId == LookupOr(records[i], Order + ["orderId"], JNull)
              && t.shipping[i].orderId == t.orders[i].orderId
  {
    NormaliseShape(records, p, t);
    forall i | 0 <= i < |records|
      ensures t.orders[i].orderId == LookupOr(records[i], Order + ["orderId"], JNull) && t.shipping[i].orderId == t.orders[i].orderId
    {
      OrderRowFollowsPaths(records[i], p);
      ShippingRowFollowsPaths(records[i], p);
    }
  }
}
