/** What the request handlers do to the shop, one request at a time.

  `Step(s, q, r, s')` says that serving `q` in state `s` may answer `r` and leave `s'`.
  It is a function of `s` and `q` except for SQL failures where the code looks at the result,
  the point at which a refused `checkout` stopped looking commodities up, and the order of a
  sweep. */
module Requests {
  import opened Tables
  import opened Shop

  datatype Op =
    | RechargeOp(role: UserKind, amount: real)
    | PasswordOp(role: UserKind, secret: Option<string>)
    | AddCommodityOp(kind: string, name: string, price: real, stock: int)
    | ModifyOp(name: string, change: Change)
    | BatchDiscountOp(kind: string, discount: real)
    | AddItemOp(name: string, quantity: int)
    | RemoveItemOp(name: string)
    | SetQuantityOp(name: string, quantity: int)
    | CheckoutOp(pay: bool, now: int)
    | PayOp(order: int)
    | CancelOp(order: int)

  datatype Request =
    | Register(kind: UserKind, name: string, secret: string)
    | Reject                                   // refused before anything is looked up
    | By(name: string, op: Op)
    | Expire(cutoff: int)
    | Fill(ids: set<int>, names: set<string>)  // read-only requests: look-ups only

  datatype Reply =
    | Ok
    | Refused
    | Ordered(checkout: CheckoutResult)
    | Payment(payment: PayResult)
    | Counted(count: int)

  /** The user type each handler insists on. */
  function Role(op: Op): UserKind {
    match op
    case RechargeOp(role, _) => role
    case PasswordOp(role, _) => role
    case AddCommodityOp(_, _, _, _) => Merchant
    case ModifyOp(_, _) => Merchant
    case BatchDiscountOp(_, _) => Merchant
    case _ => Consumer
  }

  function Verdict(r: (State, bool)): (State, Reply) { (r.0, if r.1 then Ok else Refused) }

  /** A merchant changes a commodity of their own, found by name. */
  ghost function Modify(s: State, n: string, name: string, change: Change): (State, bool) {
    match Named(s.db, name)
    case None => (s, false)
    case Some(c) =>
      var s1 := LoadShelves(s, {c});
      if s.db.commodities[c].merchant != n then (s1, false) else Update(s1, c, change)
  }

  /** The operation of a user who is cached and of the right type, when every SQL statement
    outside `checkout` succeeds. */
  ghost predicate Carried(s: State, n: string, op: Op, r: Reply, s': State)
    requires n in s.purse && n in s.db.users
  {
    var uid := s.db.users[n].id;
    match op
    case RechargeOp(_, amount) => (s', r) == Verdict(Recharge(s, n, amount))
    case PasswordOp(_, secret) => (s', r) == Verdict(SetPassword(s, n, secret))
    case AddCommodityOp(kind, name, price, stock) => (s', r) == Verdict(AddCommodity(s, kind, name, n, price, stock, 1.0))
    case ModifyOp(name, change) => (s', r) == Verdict(Modify(s, n, name, change))
    case BatchDiscountOp(kind, d) =>
      var (t, count) := BatchDiscount(s, n, kind, d);
      s' == t && r == if count > 0 then Counted(count) else Refused
    case AddItemOp(name, q) => (s', r) == Verdict(AddToCart(s, uid, name, q))
    case RemoveItemOp(name) => (s', r) == Verdict(RemoveFromCart(s, uid, name))
    case SetQuantityOp(name, q) => (s', r) == Verdict(UpdateCartQuantity(s, uid, name, q))
    case CheckoutOp(pay, now) => r.Ordered? && Checkout(s, uid, pay, now, r.checkout, s')
    case PayOp(o) => r.Payment? && PayOrder(s, uid, o) == (s', r.payment)
    case CancelOp(o) => (s', r) == Verdict(CancelOrder(s, uid, o))
  }

  /** The operation gets as far as its one statement whose result the code looks at. */
  ghost predicate ReachesStatement(s: State, n: string, op: Op)
    requires n in s.db.users
  {
    var uid := s.db.users[n].id;
    match op
    case AddCommodityOp(kind, name, price, stock) => AddCommodity(s, kind, name, n, price, stock, 1.0).1
    case ModifyOp(name, change) => Modify(s, n, name, change).1
    case BatchDiscountOp(_, d) => Acceptable(Discount(d))
    case AddItemOp(name, q) => AddToCart(s, uid, name, q).1
    case RemoveItemOp(name) => RemoveFromCart(s, uid, name).1
    case SetQuantityOp(name, q) => UpdateCartQuantity(s, uid, name, q).1
    case _ => false
  }

  /** What is left when that statement fails: whatever was looked up stays cached. */
  ghost function AfterFault(s: State, op: Op): State {
    match op
    case ModifyOp(name, _) => LoadNamed(s, name)
    case AddItemOp(name, _) => LoadNamed(s, name)
    case RemoveItemOp(name) => LoadNamed(s, name)
    case SetQuantityOp(name, _) => LoadNamed(s, name)
    case _ => s
  }

  ghost predicate Operate(s: State, n: string, op: Op, r: Reply, s': State)
    requires n in s.purse && n in s.db.users
  {
    || Carried(s, n, op, r, s')
    || (ReachesStatement(s, n, op) && r == Refused && s' == AfterFault(s, op))
  }

  /** `fault` says whether an SQL statement failed meanwhile: without one, nothing is refused
    that the shop allows. */
  ghost predicate Operates(s: State, n: string, op: Op, r: Reply, s': State, fault: bool)
    requires n in s.purse && n in s.db.users
  {
    || (Carried(s, n, op, r, s') && (r == Ordered(SqlFault) ==> fault))
    || (fault && ReachesStatement(s, n, op) && r == Refused && s' == AfterFault(s, op))
  }

  /** After looking users up, then commodities. */
  function Looked(s: State, ids: set<int>, names: set<string>): State {
    LoadShelves(LoadPurses(s, names), ids)
  }

  ghost predicate Step(s: State, q: Request, r: Reply, s': State) {
    match q
    case Register(kind, n, secret) =>
      (s', r) == Verdict(RegisterUser(s, kind, n, secret)) || (n !in s.db.users && r == Refused && s' == s)
    case Reject => s' == s && r == Refused
    case By(n, op) =>
      var s1 := LoadPurses(s, {n});
      if n !in s.db.users || s.db.users[n].kind != Role(op) then s' == s1 && r == Refused
      else Operate(s1, n, op, r, s')
    case Expire(cutoff) => r.Counted? && Sweep(s, cutoff, r.count, s')
    case Fill(ids, names) => s' == Looked(s, ids, names) && r == Ok
  }

  /** Likewise for a user's request, which starts by looking the user up. */
  ghost predicate AnswersUser(s: State, n: string, op: Op, r: Reply, s': State, fault: bool) {
    var s1 := LoadPurses(s, {n});
    || ((n !in s.db.users || s.db.users[n].kind != Role(op)) && s' == s1 && r == Refused)
    || (n in s.db.users && s.db.users[n].kind == Role(op) && Operates(s1, n, op, r, s', fault))
  }

  /** And for any request. */
  ghost predicate Answers(s: State, q: Request, r: Reply, s': State, fault: bool) {
    match q
    case Register(kind, n, secret) =>
      (s', r) == Verdict(RegisterUser(s, kind, n, secret)) || (fault && n !in s.db.users && r == Refused && s' == s)
    case By(n, op) => AnswersUser(s, n, op, r, s', fault)
    case _ => Step(s, q, r, s')
  }

  lemma {:induction false} AnswersStep(s: State, q: Request, r: Reply, s': State, fault: bool)
    requires Answers(s, q, r, s', fault)
    ensures Step(s, q, r, s')
  {
  }

  /** Inputs as the client sends them: it refuses a price that is not positive and a negative
    stock before asking; the server does not check the two when a commodity is added. */
  predicate Admissible(q: Request) {
    q.By? && q.op.AddCommodityOp? ==> 0.0 <= q.op.price && 0 <= q.op.stock
  }
}
