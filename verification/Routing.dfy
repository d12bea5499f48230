/** Which handler a message reaches, and which lock it is served under (src/Server.cpp). */
module Routing {
  import opened Tables
  import opened Shop
  import opened Requests

  /** A parsed request; fields a handler does not look at may hold anything. `secret` stands
    for what `encryptPassword` makes of `password`. */
  datatype Wire = Wire(
    action: string, operation: int, username: string, password: string, secret: string, kind: string, name: string,
    price: real, quantity: int, amount: real, order: int, immediate: bool)

  function Encrypted(w: Wire): Option<string> { if PasswordFits(w.password) then Some(w.secret) else None }

  const ACTIONS := {"login", "register", "searchCommodities", "merchantOperation", "consumerOperation",
                    "cartOperation", "orderOperation"}

  /** The requests that are served under the shared lock. */
  predicate IsReadOnly(action: string, operation: int) {
    if action == "searchCommodities" || action == "login" then true
    else if action == "register" then false
    else if action == "merchantOperation" then operation == 1 || operation == 40
    else if action == "consumerOperation" then operation == 1 || operation == 3 || operation == 4
    else if action == "cartOperation" then operation == 1
    else if action == "orderOperation" then operation == 0
    else false
  }

  /** `ids` are the rows the search or listing query finds, `now` is the clock. */
  function Route(w: Wire, now: int, ids: set<int>): Request {
    if w.action == "login" then Fill({}, {w.username})
    else if w.action == "searchCommodities" then Fill(ids, {})
    else if w.action == "register" then
      if Encrypted(w).None? then Reject
      else if w.kind == "Merchant" then Register(Merchant, w.username, w.secret)
      else if w.kind == "Consumer" then Register(Consumer, w.username, w.secret)
      else Reject
    else if w.action == "merchantOperation" then RouteMerchant(w, ids)
    else if w.action == "consumerOperation" then RouteConsumer(w, now, ids)
    else if w.action == "cartOperation" then RouteCart(w, now)
    else if w.action == "orderOperation" then RouteOrder(w)
    else Reject
  }

  function RouteMerchant(w: Wire, ids: set<int>): Request {
    match w.operation
    case 2 => By(w.username, RechargeOp(Merchant, w.amount))
    case 3 => By(w.username, AddCommodityOp(w.kind, w.name, w.price, w.quantity))
    case 5 => By(w.username, PasswordOp(Merchant, Encrypted(w)))
    case 40 => Fill(ids, {w.username})
    case 41 => By(w.username, ModifyOp(w.name, Price(w.price)))
    case 42 => By(w.username, ModifyOp(w.name, Stock(w.quantity)))
    case 43 => By(w.username, ModifyOp(w.name, Discount(w.amount)))
    case 44 => By(w.username, BatchDiscountOp(w.kind, w.amount))
    case _ => Fill({}, {w.username})
  }

  function RouteConsumer(w: Wire, now: int, ids: set<int>): Request {
    match w.operation
    case 2 => By(w.username, RechargeOp(Consumer, w.amount))
    case 3 => Fill(ids, {w.username})
    case 4 => Fill(ids, {w.username})
    case 5 => By(w.username, PasswordOp(Consumer, Encrypted(w)))
    case 6 => RouteCart(w, now)
    case 7 => RouteOrder(w)
    case _ => Fill({}, {w.username})
  }

  function RouteCart(w: Wire, now: int): Request {
    match w.operation
    case 2 => By(w.username, AddItemOp(w.name, w.quantity))
    case 3 => By(w.username, RemoveItemOp(w.name))
    case 4 => By(w.username, SetQuantityOp(w.name, w.quantity))
    case 5 => By(w.username, CheckoutOp(w.immediate, now))
    case _ => Fill({}, {w.username})
  }

  function RouteOrder(w: Wire): Request {
    match w.operation
    case 1 => By(w.username, PayOp(w.order))
    case 2 => By(w.username, CancelOp(w.order))
    case _ => Fill({}, {w.username})
  }

  /** The codes that reach an operation which may write. */
  predicate Writes(w: Wire) {
    || (w.action == "register" && (w.kind == "Merchant" || w.kind == "Consumer") && Encrypted(w).Some?)
    || (w.action == "merchantOperation" && w.operation in {2, 3, 5, 41, 42, 43, 44})
    || (w.action == "consumerOperation" && w.operation in {2, 5})
    || (w.action == "cartOperation" && w.operation in {2, 3, 4, 5})
    || (w.action == "orderOperation" && w.operation in {1, 2})
  }

  /** Searches and listings. */
  predicate Lists(w: Wire) {
    || w.action == "searchCommodities"
    || (w.action == "merchantOperation" && w.operation == 40)
    || (w.action == "consumerOperation" && w.operation in {3, 4})
  }

  /** Whom a message that does not write looks up. */
  function Asker(w: Wire): set<string> {
    if w.action in ACTIONS - {"register", "searchCommodities"} then {w.username} else {}
  }

  predicate LooksOnly(q: Request) { q.Fill? || q.Reject? }

  /** What is served under the shared lock only looks things up, and so does everything else
    but the writing codes. The cart and order switches read the same `operation` field as the
    consumer switch, so its codes 6 and 7 reach neither a cart nor an order operation. */
  lemma {:induction false} RoutesApart(w: Wire, now: int, ids: set<int>)
    ensures IsReadOnly(w.action, w.operation) ==> Route(w, now, ids).Fill?
    ensures IsReadOnly(w.action, w.operation) <==> (
      || w.action == "login" || Lists(w)
      || (w.operation == 1 && w.action in {"merchantOperation", "consumerOperation", "cartOperation"})
      || (w.operation == 0 && w.action == "orderOperation"))
    ensures if Writes(w) then !LooksOnly(Route(w, now, ids)) && Route(w, now, ids) == Route(w, now, {})
      else if w.action in ACTIONS - {"register"} then Route(w, now, ids) == Fill(if Lists(w) then ids else {}, Asker(w))
      else Route(w, now, ids) == Reject
    ensures Writes(w) ==> w.action in ACTIONS && !IsReadOnly(w.action, w.operation)
    ensures w.action == "consumerOperation" && w.operation in {6, 7} ==> Route(w, now, ids) == Fill({}, {w.username})
  {
  }
}
