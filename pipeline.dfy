/** The script around the loop: load the records, build the tables
    (de-duplicating customers), and assert that no table is empty before
    the CSV files are written. */
module Pipeline {
  import opened Wrappers
  import opened JsonValues
  import opened Rows
  import opened Normaliser
  import opened NormaliserProperties
  import opened Dedup

  /** load_json: the parsed document when it is a list, otherwise [] (a
      missing file, a parse error and a non-list document all end here;
      None stands for the first two). */
  function LoadRecords(document: Option<Json>): seq<Json> {
    if document.Some? && document.value.JArray? then document.value.items else []
  }

  /** The five tables, in the order the assertions check them. */
  datatype Table = Orders | Customers | OrderItems | Discounts | Shipping

  function Position(table: Table): nat {
    match table
    case Orders => 0
    case Customers => 1
    case OrderItems => 2
    case Discounts => 3
    case Shipping => 4
  }

  function Size(t: Tables, table: Table): nat {
    match table
    case Orders => |t.orders|
    case Customers => |t.customers|
    case OrderItems => |t.orderItems|
    case Discounts => |t.discounts|
    case Shipping => |t.shipping|
  }

  /** The assertion that stops the run: the first empty table, or None when all five hold rows. */
  function FirstEmpty(t: Tables): (r: Option<Table>)
    ensures r.None? <==> forall table :: Size(t, table) > 0
    ensures r.Some? ==>
              && Size(t, r.value) == 0
              && forall table | Position(table) < Position(r.value) :: Size(t, table) > 0
  {
    if Size(t, Orders) == 0 then Some(Orders)
    else if Size(t, Customers) == 0 then Some(Customers)
    else if Size(t, OrderItems) == 0 then Some(OrderItems)
    else if Size(t, Discounts) == 0 then Some(Discounts)
    else if Size(t, Shipping) == 0 then Some(Shipping)
    else None
  }

  /** A cell pandas can hash: drop_duplicates raises TypeError on a list or dict cell. */
  predicate Hashable(v: Json) {
    !v.JArray? && !v.JObject?
  }

  predicate HashableRow(c: CustomerRow) {
    Hashable(c.customerReference) && Hashable(c.firstName) && Hashable(c.lastName) && Hashable(c.email)
  }

  /** The cells of the customer row a record gives are hashable: its
      customerReference and its customerDetails' firstName, lastName and
      email are not lists or dicts (absent ones become None). */
  predicate CustomerCellsHashable(record: Json) {
    && Hashable(LookupOr(record, Order + ["customerReference"], JNull))
    && Hashable(LookupOr(record, Order + ["customerDetails", "firstName"], JNull))
    && Hashable(LookupOr(record, Order + ["customerDetails", "lastName"], JNull))
    && Hashable(LookupOr(record, Order + ["customerDetails", "email"], JNull))
  }

  /** Customer row i of a run through the loop is hashable exactly when record i's customer cells are. */
  lemma CustomerRowHashableAt(records: seq<Json>, p: DateParsers, t: Tables, i: int)
    requires Normalise(records, p) == Success(t)
    requires 0 <= i < |records|
    ensures i < |t.customers|
    ensures HashableRow(t.customers[i]) <==> CustomerCellsHashable(records[i])
  {
    LoopAt(records, Body(p), t, i);
    CustomerRowFollowsPaths(records[i], p);
  }

  /** After the loop, drop_duplicates can hash every customer row exactly
      when every record's customer cells are hashable. */
  lemma CustomerRowsHashableIff(records: seq<Json>, p: DateParsers, t: Tables)
    requires Normalise(records, p) == Success(t)
    ensures (forall c | c in t.customers :: HashableRow(c)) <==>
            forall i | 0 <= i < |records| :: CustomerCellsHashable(records[i])
  {
    LoopSizes(records, Body(p), t);
    forall i | 0 <= i < |records| ensures HashableRow(t.customers[i]) <==> CustomerCellsHashable(records[i]) {
      CustomerRowHashableAt(records, p, t, i);
    }
    if forall i | 0 <= i < |records| :: CustomerCellsHashable(records[i]) {
      forall c | c in t.customers ensures HashableRow(c) {
        var i :| 0 <= i < |t.customers| && t.customers[i] == c;
      }
    }
  }

  /** How a run ends without writing the CSV files. */
  datatype RunError =
    | Crashed(crash: Crash)        // the loop body raised
    | UnhashableCustomer           // drop_duplicates met a list or dict cell
    | EmptyTable(table: Table)     // an emptiness assertion failed

  /** Lines 116-126 on the tables the loop built: drop duplicate customers,
      then assert that no table is empty. */
  function Finish(t: Tables): Result<Tables, RunError> {
    if exists c | c in t.customers :: !HashableRow(c) then Failure(UnhashableCustomer)
    else
      var tables := t.(customers := DropDuplicates(t.customers));
      match FirstEmpty(tables)
      case Some(table) => Failure(EmptyTable(table))
      case None => Success(tables)
  }

  /** The tables the run writes, or why it stops. */
  function Run(records: seq<Json>, p: DateParsers): Result<Tables, RunError> {
    match Normalise(records, p)
    case Failure(c) => Failure(Crashed(c))
    case Success(t) => Finish(t)
  }

  /** The assertions pass on the loop's tables exactly when every table holds
      a row and no customer cell is a list or dict; de-duplication never
      empties the customers table. */
  lemma FinishSucceedsIff(t: Tables)
    ensures Finish(t).Success? <==>
              && (forall c | c in t.customers :: HashableRow(c))
              && forall table :: Size(t, table) > 0
    ensures Finish(t).Success? ==> Finish(t).value == t.(customers := DropDuplicates(t.customers))
  {
    var tables := t.(customers := DropDuplicates(t.customers));
    if t.customers != [] {
      HeadIsMember(t.customers);
    }
    assert Size(tables, Customers) > 0 <==> Size(t, Customers) > 0;
    assert forall table | table != Customers :: Size(tables, table) == Size(t, table);
  }

  /** The script from the loop to the assertions. */
  method ParseOrders(records: seq<Json>, p: DateParsers) returns (outcome: Result<Tables, RunError>)
    ensures outcome == Run(records, p)
  {
    var normalised := NormaliseOrders(records, p);
    if normalised.Failure? {
      return Failure(Crashed(normalised.error));
    }
    var t := normalised.value;
    if exists c | c in t.customers :: !HashableRow(c) {
      return Failure(UnhashableCustomer);
    }
    var tables := t.(customers := DropDuplicates(t.customers));
    var empty := FirstEmpty(tables);
    if empty.Some? {
      return Failure(EmptyTable(empty.value));
    }
    outcome := Success(tables);
  }

  /** A failed load, a non-list document and an empty list all stop the run
      at the first assertion, on the orders table. */
  lemma NothingLoadedAborts(document: Option<Json>, p: DateParsers)
    requires LoadRecords(document) == []
    ensures Run(LoadRecords(document), p) == Failure(EmptyTable(Orders))
  {
  }

  /** Once the loop has gone through, the assertions pass exactly when no
      customer cell is a list or dict, there is at least one record, and the
      records hold at least one line item and at least one discount. */
  lemma AssertionsAfterLoop(records: seq<Json>, p: DateParsers)
    requires Normalise(records, p).Success?
    ensures Finish(Normalise(records, p).value).Success? <==>
              && (forall i | 0 <= i < |records| :: CustomerCellsHashable(records[i]))
              && records != []
              && LineItemCount(records) > 0
              && DiscountCount(records) > 0
  {
    var t := Normalise(records, p).value;
    NormaliseCounts(records, p, t);
    FinishSucceedsIff(t);
    EveryTableHoldsRows(t);
    CustomerRowsHashableIff(records, p, t);
  }

  /** Every table holds a row exactly when none of the five lists is empty. */
  lemma EveryTableHoldsRows(t: Tables)
    ensures (forall table :: Size(t, table) > 0) <==>
              t.orders != [] && t.customers != [] && t.orderItems != [] && t.discounts != [] && t.shipping != []
  {
    assert Size(t, Orders) == |t.orders| && Size(t, Customers) == |t.customers| && Size(t, OrderItems) == |t.orderItems|;
    assert Size(t, Discounts) == |t.discounts| && Size(t, Shipping) == |t.shipping|;
  }

  /** The run writes its files exactly when no record raises, no customer
      cell is a list or dict, there is at least one record, and the records
      hold at least one line item and at least one discount. */
  lemma PipelineSucceedsIff(records: seq<Json>, p: DateParsers)
    ensures Run(records, p).Success? <==>
              && (forall i | 0 <= i < |records| :: Handled(records[i], p) && CustomerCellsHashable(records[i]))
              && records != []
              && LineItemCount(records) > 0
              && DiscountCount(records) > 0
  {
    NormaliseStopsAtFirstCrash(records, p);
    if Normalise(records, p).Success? {
      AssertionsAfterLoop(records, p);
    }
  }

  /** What a successful run writes: every order and shipping row (one per
      record), each record's item and discount rows in input order, and the
      customer rows with duplicates dropped. */
  lemma PipelineTables(records: seq<Json>, p: DateParsers)
    requires Run(records, p).Success?
    ensures var out := Run(records, p).value;
            var t := Normalise(records, p).value;
      && Normalise(records, p).Success?
      && out.orders == t.orders && out.orderItems == t.orderItems
      && out.discounts == t.discounts && out.shipping == t.shipping
      && |out.orders| == |records| && |out.shipping| == |records|
      && |out.orderItems| == LineItemCount(records) && |out.discounts| == DiscountCount(records)
      && out.orderItems == Blocks(records, RecordItemsByPaths)
      && out.discounts == Blocks(records, RecordDiscountsByPaths)
      && NoDuplicates(out.customers)
      && (forall c :: c in out.customers <==> c in t.customers)
      && InFirstOccurrenceOrder(t.customers, out.customers)
      && 0 < |out.customers| <= |records|
  {
    var t := Normalise(records, p).value;
    NormaliseCounts(records, p, t);
    NormaliseChildRows(records, p, t);
    DropDuplicatesKeepsFirstOccurrenceOrder(t.customers);
    DropDuplicatesIsShorter(t.customers);
  }

  /** The discount assertion is as strict as the others: records that all
      go through, with line items but without a single discount, stop the run. */
  lemma NoDiscountsAborts(records: seq<Json>, p: DateParsers)
    requires forall i | 0 <= i < |records| :: Handled(records[i], p) && CustomerCellsHashable(records[i])
    requires records != [] && LineItemCount(records) > 0 && DiscountCount(records) == 0
    ensures Run(records, p) == Failure(EmptyTable(Discounts))
  {
    NormaliseStopsAtFirstCrash(records, p);
    var t := Normalise(records, p).value;
    NormaliseCounts(records, p, t);
    CustomerRowsHashableIff(records, p, t);
    DiscountsCheckedAfterItems(t);
  }

  /** With orders, customers and line items but no discounts, the assertions
      fail on the discounts table and not on an earlier one. */
  lemma DiscountsCheckedAfterItems(t: Tables)
    requires forall c | c in t.customers :: HashableRow(c)
    requires t.orders != [] && t.customers != [] && t.orderItems != [] && t.discounts == []
    ensures Finish(t) == Failure(EmptyTable(Discounts))
  {
    HeadIsMember(t.customers);
    assert Size(t.(customers := DropDuplicates(t.customers)), Customers) > 0;
  }

  /** Customer details shared by the two orders of the scenario below. */
  const ScenarioCustomer := JObject(map["firstName" := JString("Ada"), "lastName" := JString("Byron")])

  /** An order with two line items and one discount. */
  const ScenarioFirst :=
    JObject(map["event_payload" := JObject(map["order" := JObject(map[
      "orderId" := JString("A1"), "customerDetails" := ScenarioCustomer,
      "lineItems" := JArray([EmptyObject, EmptyObject]),
      "appliedDiscounts" := JArray([EmptyObject])])])])

  /** An order by the same customer with no line items and no discounts. */
  const ScenarioSecond :=
    JObject(map["event_payload" := JObject(map["order" := JObject(map[
      "orderId" := JString("A2"), "customerDetails" := ScenarioCustomer,
      "lineItems" := EmptyList])])])

  /** The two orders above: two order rows, one customer row, two item rows,
      one discount row, two shipping rows. */
  lemma TwoOrdersScenario(records: seq<Json>, p: DateParsers)
    requires records == [ScenarioFirst, ScenarioSecond]
    ensures var out := Run(records, p);
      && out.Success?
      && |out.value.orders| == 2 && |out.value.customers| == 1 && |out.value.orderItems| == 2
      && |out.value.discounts| == 1 && |out.value.shipping| == 2
  {
    var t := ScenarioLoop(records, p);
    ScenarioAssertionsPass(t);
  }

  /** The assertions on the scenario's tables pass; the two equal customer rows become one. */
  lemma ScenarioAssertionsPass(t: Tables)
    requires t.customers == [ScenarioCustomerRow, ScenarioCustomerRow]
    requires |t.orders| == 2 && |t.orderItems| == 2 && |t.discounts| == 1 && |t.shipping| == 2
    ensures Finish(t) == Success(t.(customers := [ScenarioCustomerRow]))
  {
    var customer := ScenarioCustomerRow;
    var twice := [customer, customer];
    assert twice[..1] == [customer] && [customer][..0] == [];
    assert DropDuplicates([customer]) == [customer];
    assert DropDuplicates(twice) == [customer];
    FinishSucceedsIff(t);
  }

  /** The loop over the two scenario orders. */
  lemma ScenarioLoop(records: seq<Json>, p: DateParsers) returns (t: Tables)
    requires records == [ScenarioFirst, ScenarioSecond]
    ensures Normalise(records, p) == Success(t)
    ensures t.customers == [ScenarioCustomerRow, ScenarioCustomerRow]
    ensures |t.orders| == 2 && |t.orderItems| == 2 && |t.discounts| == 1 && |t.shipping| == 2
  {
    var first := ScenarioFirstRows(p);
    var second := ScenarioSecondRows(p);
    assert records[..1] == [ScenarioFirst] && [ScenarioFirst][..0] == [];
    assert Body(p)(ScenarioFirst) == Success(first) && Body(p)(ScenarioSecond) == Success(second);
    assert Loop([], Body(p)) == Success(NoTables);
    assert Loop([ScenarioFirst], Body(p)) == Success(NoTables.Add(first));
    t := NoTables.Add(first).Add(second);
  }

  /** The customer row both scenario orders give. */
  const ScenarioCustomerRow := CustomerRow(JNull, JString("Ada"), JString("Byron"), JNull)

  /** The rows of the first scenario order. */
  lemma ScenarioFirstRows(p: DateParsers) returns (rows: RecordRows)
    ensures NormaliseRecord(ScenarioFirst, p) == Success(rows)
    ensures rows.customer == ScenarioCustomerRow && |rows.items| == 2 && |rows.discounts| == 1
  {
    var order := ScenarioFirst.fields["event_payload"].fields["order"].fields;
    var orderId := JString("A1");
    assert OrderOf(ScenarioFirst) == Success(order);
    var header := OrderRow(orderId, JNull, Raw(JNull), JNumber(0.0), JNull, JNull);
    assert OrderHeader(order, p) == Success(header);
    assert CustomerRowOf(order) == Success(ScenarioCustomerRow);
    assert Get(order, "lineItems", EmptyList) == JArray([EmptyObject, EmptyObject]);
    assert Get(order, "appliedDiscounts", EmptyList) == JArray([EmptyObject]);
    var items, discounts := EmptyElementRows(orderId);
    var shipping := ShippingRow(orderId, JNull, JNull, JNull, JNull, JNull);
    assert ShippingRowOf(orderId, order) == Success(shipping);
    rows := RecordRows(header, ScenarioCustomerRow, items, discounts, shipping);
  }

  /** The rows of the second scenario order. */
  lemma ScenarioSecondRows(p: DateParsers) returns (rows: RecordRows)
    ensures NormaliseRecord(ScenarioSecond, p) == Success(rows)
    ensures rows.customer == ScenarioCustomerRow && rows.items == [] && rows.discounts == []
  {
    var order := ScenarioSecond.fields["event_payload"].fields["order"].fields;
    var orderId := JString("A2");
    assert OrderOf(ScenarioSecond) == Success(order);
    var header := OrderRow(orderId, JNull, Raw(JNull), JNumber(0.0), JNull, JNull);
    assert OrderHeader(order, p) == Success(header);
    assert CustomerRowOf(order) == Success(ScenarioCustomerRow);
    assert Get(order, "lineItems", EmptyList) == EmptyList;
    assert Get(order, "appliedDiscounts", EmptyList) == EmptyList;
    assert LineItemRows(orderId, EmptyList) == Success([]);
    assert AppliedDiscountRows(orderId, EmptyList) == Success([]);
    var shipping := ShippingRow(orderId, JNull, JNull, JNull, JNull, JNull);
    assert ShippingRowOf(orderId, order) == Success(shipping);
    rows := RecordRows(header, ScenarioCustomerRow, [], [], shipping);
  }

  /** Two empty line items give two rows with null fields and zero amounts;
      one empty discount gives one row with null fields. */
  lemma EmptyElementRows(orderId: Json) returns (items: seq<ItemRow>, discounts: seq<DiscountRow>)
    ensures LineItemRows(orderId, JArray([EmptyObject, EmptyObject])) == Success(items) && |items| == 2
    ensures AppliedDiscountRows(orderId, JArray([EmptyObject])) == Success(discounts) && |discounts| == 1
    ensures forall row | row in items :: row == ItemRow(orderId, JNull, JNull, JNull, JNull, JNumber(0.0), JNumber(0.0))
    ensures forall row | row in discounts :: row == DiscountRow(orderId, JNull, JNull, JNull)
  {
    var item := ItemRow(orderId, JNull, JNull, JNull, JNull, JNumber(0.0), JNumber(0.0));
    var discount := DiscountRow(orderId, JNull, JNull, JNull);
    assert ItemRowOf(orderId, EmptyObject) == Success(item);
    assert DiscountRowOf(orderId, EmptyObject) == Success(discount);
    var two := [EmptyObject, EmptyObject];
    assert two[..0] == [] && two[..2] == two && two[0] == EmptyObject && two[1] == EmptyObject;
    assert ItemRows(orderId, []) == Success([]) && DiscountRows(orderId, []) == Success([]);
    ItemRowsExtend(orderId, two, 0);
    assert [] + [item] == [item];
    assert ItemRows(orderId, two[..1]) == Success([item]);
    ItemRowsExtend(orderId, two, 1);
    assert [item] + [item] == [item, item];
    var one := [EmptyObject];
    assert one[..0] == [] && one[..1] == one && one[0] == EmptyObject;
    DiscountRowsExtend(orderId, one, 0);
    assert [] + [discount] == [discount];
    items := [item, item];
    discounts := [discount];
  }
}
