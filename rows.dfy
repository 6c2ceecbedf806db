/** The flattened rows the normaliser produces, one datatype per output table. */
module Rows {
  import opened JsonValues

  /** A `datetime` as `strptime` or `fromtimestamp` returns it. */
  datatype DateTime = DateTime(year: int, month: int, day: int, hour: int, minute: int, second: int, microsecond: int)

  /** The order_date cell: the raw placedAt value (None included) or a parsed datetime. */
  datatype DateCell = Raw(value: Json) | Stamp(at: DateTime)

  datatype OrderRow = OrderRow(
    orderId: Json, customerReference: Json, orderDate: DateCell,
    totalPrice: Json, currency: Json, source: Json)

  datatype CustomerRow = CustomerRow(customerReference: Json, firstName: Json, lastName: Json, email: Json)

  datatype ItemRow = ItemRow(
    orderId: Json, productId: Json, variantId: Json, sku: Json,
    quantity: Json, subtotal: Json, total: Json)

  datatype DiscountRow = DiscountRow(orderId: Json, discountCode: Json, discountType: Json, discountValue: Json)

  datatype ShippingRow = ShippingRow(
    orderId: Json, city: Json, country: Json, postcode: Json,
    addressLine1: Json, addressLine2: Json)

  /** The rows one input record contributes to the five lists. */
  datatype RecordRows = RecordRows(
    order: OrderRow, customer: CustomerRow, items: seq<ItemRow>,
    discounts: seq<DiscountRow>, shipping: ShippingRow)

  /** The five accumulator lists: orders, customers, order_items, discounts, shipping_details. */
  datatype Tables = Tables(
    orders: seq<OrderRow>, customers: seq<CustomerRow>, orderItems: seq<ItemRow>,
    discounts: seq<DiscountRow>, shipping: seq<ShippingRow>)
  {
    /** The lists after one more record's rows are appended. */
    function Add(r: RecordRows): Tables {
      Tables(orders + [r.order], customers + [r.customer], orderItems + r.items,
             discounts + r.discounts, shipping + [r.shipping])
    }
  }

  const NoTables: Tables := Tables([], [], [], [], [])
}
