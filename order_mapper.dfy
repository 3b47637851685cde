/** Shaping of payment rows into the order representation returned to API clients. */
module OrderMapper {
  import opened Wrappers
  import opened Runtime
  import opened Payments

  datatype Link = Link(rel: string, href: string)

  /** The order representation; it has no session id field. */
  datatype OrderResponse = OrderResponse(
    id: string,
    createdAt: nat,
    amount: int,
    currency: string,
    receipt: string,
    status: string,
    links: Option<seq<Link>>)

  datatype ListResponse = ListResponse(orders: seq<OrderResponse>)

  /**
   * `toResponse`: the row's public fields, unchanged, plus a single session link exactly
   * when links are asked for and the row has a non-empty session URL. `includeLinks`
   * defaults to false.
   */
  function ToResponse(order: Payment, includeLinks: bool := false): (r: OrderResponse)
    ensures r.id == order.id && r.createdAt == order.createdAt && r.amount == order.amount
    ensures r.currency == order.currency && r.receipt == order.receipt
    ensures r.status == StatusName(order.status)
    ensures r.links.Some? <==> includeLinks && Truthy(order.sessionUrl)
    ensures r.links.Some? ==> r.links.value == [Link("session_link", order.sessionUrl.value)]
  {
    var links := if includeLinks && Truthy(order.sessionUrl)
      then Some([Link("session_link", order.sessionUrl.value)])
      else None;
    OrderResponse(order.id, order.createdAt, order.amount, order.currency, order.receipt,
                  StatusName(order.status), links)
  }

  /**
   * `toListResponse`: one response per row, in the rows' order, each built with the
   * default (no links).
   */
  function ToListResponse(orders: seq<Payment>): (r: ListResponse)
    ensures |r.orders| == |orders|
    ensures forall i :: 0 <= i < |orders| ==> r.orders[i] == ToResponse(orders[i])
    ensures forall i :: 0 <= i < |orders| ==> r.orders[i].links.None?
  {
    ListResponse(seq(|orders|, i requires 0 <= i < |orders| => ToResponse(orders[i])))
  }

  /** The default is the same as asking for no links, and then no links are produced. */
  lemma IncludeLinksDefaultsToFalse(order: Payment)
    ensures ToResponse(order) == ToResponse(order, false)
    ensures ToResponse(order).links.None?
  {
  }

  /** The session id never reaches a response: rows that differ only in it map alike. */
  lemma SessionIdNeverExposed(order: Payment, sessionId: Option<string>, includeLinks: bool)
    ensures ToResponse(order.(sessionId := sessionId), includeLinks) == ToResponse(order, includeLinks)
  {
  }

  /** Projecting a list commutes with concatenation, so the order of rows is kept. */
  lemma ListResponseAppend(a: seq<Payment>, b: seq<Payment>)
    ensures ToListResponse(a + b).orders == ToListResponse(a).orders + ToListResponse(b).orders
  {
  }
}
