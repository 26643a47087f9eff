/** The decisions of the admin transaction-management page: which order it
    shows, how the page is chosen, how each line and the status are shown,
    and what the update and delete buttons send. */
module TransactionManagement {
  import opened Js
  import opened Types

  /** Every text field empty, every amount zero, no items. */
  predicate ZeroValued(o: Order) {
    && o.shippingInfo.address == ""
    && o.shippingInfo.city == ""
    && o.shippingInfo.state == ""
    && o.shippingInfo.country == ""
    && o.shippingInfo.pinCode == ""
    && o.status == ""
    && o.subtotal == 0.0
    && o.discount == 0.0
    && o.shippingCharges == 0.0
    && o.tax == 0.0
    && o.total == 0.0
    && o.orderItems == []
    && o.user.name == ""
    && o.user.id == ""
    && o.id == ""
  }

  /** The placeholder order shown while no order is loaded. */
  function DefaultOrder(): (o: Order)
    ensures ZeroValued(o)
  {
    Order(ShippingInfo("", "", "", "", ""), "", 0.0, 0.0, 0.0, 0.0, 0.0, [], OrderUser("", ""), "")
  }

  /** The body of the order-details response. */
  datatype OrderDetailsResponse = OrderDetailsResponse(order: Option<Order>)

  /** `data?.order || defaultOrder`: the loaded order when there is one,
      the placeholder otherwise (an order object is always truthy). */
  function Snapshot(data: Option<OrderDetailsResponse>): (o: Order)
    ensures data.Some? && data.value.order.Some? ==> o == data.value.order.value
    ensures data.None? || data.value.order.None? ==> ZeroValued(o)
  {
    match data
    case Some(OrderDetailsResponse(Some(order))) => order
    case _ => DefaultOrder()
  }

  /** `params.id || ""`: the id the order is queried with. */
  function QueryId(routeId: Option<string>): (id: string)
    ensures routeId.None? ==> id == ""
    ensures routeId.Some? ==> id == routeId.value
  {
    OrElse(routeId, "")
  }

  /** The class given to the status text. */
  datatype StatusClass = Purple | Green | Red

  function StatusColour(status: string): (c: StatusClass)
    ensures c == Purple <==> status == "Delivered"
    ensures c == Green <==> status == "Shipped"
    ensures c == Red <==> status != "Delivered" && status != "Shipped"
  {
    if status == "Delivered" then Purple
    else if status == "Shipped" then Green
    else Red
  }

  /** What one product card shows. */
  datatype ProductCardView = ProductCardView(
    name: string,
    productLink: string,
    price: real,
    quantity: int,
    lineTotal: real)

  function ProductCard(item: OrderItem): (c: ProductCardView)
    ensures c.name == item.name && c.price == item.price && c.quantity == item.quantity
    ensures c.productLink == "/product/" + item.productId
    ensures c.lineTotal == item.price * (item.quantity as real)
    ensures item.quantity == 0 ==> c.lineTotal == 0.0
  {
    ProductCardView(item.name, "/product/" + item.productId, item.price, item.quantity,
                    item.price * (item.quantity as real))
  }

  /** `orderItems.map(ProductCard)`: one card per item, in order. */
  function ProductCards(items: seq<OrderItem>): (cards: seq<ProductCardView>)
    ensures |cards| == |items|
    ensures forall i :: 0 <= i < |items| ==> cards[i] == ProductCard(items[i])
  {
    if items == [] then [] else [ProductCard(items[0])] + ProductCards(items[1..])
  }

  /** The address line of the details view (transactionmanagement.tsx:100):
      `${address}, ${city}, ${state}, ${country} ${pinCode}` */
  function AddressLine(s: ShippingInfo): string {
    s.address + ", " + s.city + ", " + s.state + ", " + s.country + " " + s.pinCode
  }

  /** The details view of an order. */
  datatype DetailsView = DetailsView(
    cards: seq<ProductCardView>,
    userName: string,
    address: string,
    subtotal: real,
    shippingCharges: real,
    tax: real,
    discount: real,
    total: real,
    status: string,
    statusClass: StatusClass)

  function Details(o: Order): (d: DetailsView)
    ensures |d.cards| == |o.orderItems|
    ensures forall i :: 0 <= i < |o.orderItems| ==>
      d.cards[i].lineTotal == o.orderItems[i].price * (o.orderItems[i].quantity as real)
    ensures d.total == o.total && d.subtotal == o.subtotal && d.tax == o.tax
    ensures d.discount == o.discount && d.shippingCharges == o.shippingCharges
    ensures d.userName == o.user.name && d.address == AddressLine(o.shippingInfo)
    ensures d.status == o.status && d.statusClass == StatusColour(o.status)
  {
    DetailsView(ProductCards(o.orderItems), o.user.name, AddressLine(o.shippingInfo),
                o.subtotal, o.shippingCharges, o.tax, o.discount, o.total,
                o.status, StatusColour(o.status))
  }

  /** The state of the order-details query. */
  datatype OrderQuery = OrderQuery(isLoading: bool, isError: bool, data: Option<OrderDetailsResponse>)

  /** What the page renders. */
  datatype Page = Redirect(to: string) | Loading | Loaded(details: DetailsView)

  const NotFoundRoute := "/404"

  function RenderPage(q: OrderQuery): (p: Page)
    ensures q.isError ==> p == Redirect(NotFoundRoute)
    ensures !q.isError && q.isLoading ==> p == Loading
    ensures p.Loaded? <==> !q.isError && !q.isLoading
    ensures p.Loaded? ==> p.details == Details(Snapshot(q.data))
    ensures p.Loaded? && (q.data.None? || q.data.value.order.None?) ==>
      p.details.cards == [] && p.details.total == 0.0 && p.details.statusClass == Red
  {
    if q.isError then Redirect(NotFoundRoute)
    else if q.isLoading then Loading
    else Loaded(Details(Snapshot(q.data)))
  }

  /** The `{ userId, orderId }` argument of both mutations. */
  datatype OrderRequest = OrderRequest(userId: string, orderId: string)

  function MutationRequest(user: Option<User>, order: Order): (req: OrderRequest)
    ensures req.orderId == order.id
    ensures user.Some? ==> req.userId == user.value.id
    ensures req.userId == "" <==> user.None? || user.value.id == ""
  {
    OrderRequest(OrElse(if user.Some? then Some(user.value.id) else None, ""), order.id)
  }

  datatype Mutation = UpdateOrder | DeleteOrder

  /** What a button handler does: issue one mutation and hand its result,
      with the destination route, to the feedback routine. */
  datatype HandlerCall = HandlerCall(mutation: Mutation, request: OrderRequest, destination: string)

  const TransactionListRoute := "/admin/transaction"

  /** `updateHandler` (m == UpdateOrder) and `deleteHandler` (m == DeleteOrder),
      for the signed-in user and the page's query data. */
  function Handler(m: Mutation, user: Option<User>, data: Option<OrderDetailsResponse>): (h: HandlerCall)
    ensures h.mutation == m && h.destination == TransactionListRoute
    ensures h.request == MutationRequest(user, Snapshot(data))
    ensures data.None? || data.value.order.None? ==> h.request.orderId == ""
    ensures data.Some? && data.value.order.Some? ==> h.request.orderId == data.value.order.value.id
  {
    HandlerCall(m, MutationRequest(user, Snapshot(data)), TransactionListRoute)
  }

  /** Update and delete send the same request to the same destination. */
  lemma UpdateAndDeleteAgree(user: Option<User>, data: Option<OrderDetailsResponse>)
    ensures Handler(UpdateOrder, user, data).request == Handler(DeleteOrder, user, data).request
    ensures Handler(UpdateOrder, user, data).destination == Handler(DeleteOrder, user, data).destination
  {
  }

  /** Worked example. A loaded order with one item of price 100 and quantity 2 shows the
      line total 200 and its stored total, not a recomputed one. */
  lemma StoredTotalIsShown()
    ensures
      var item := OrderItem("Shoe", "shoe.png", 100.0, 2, "p1", "i1");
      var o := Order(ShippingInfo("1 Road", "Pune", "MH", "India", "411001"), "Processing",
                     200.0, 10.0, 0.0, 36.0, 226.0, [item], OrderUser("Asha", "u1"), "X1");
      var p := RenderPage(OrderQuery(false, false, Some(OrderDetailsResponse(Some(o)))));
      p.Loaded? && p.details.cards[0].lineTotal == 200.0 && p.details.total == 226.0
      && p.details.statusClass == Red
  {
  }
}
