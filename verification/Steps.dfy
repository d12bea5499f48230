/** What one served request does to the invariant, the accounts, the caches and the orders. */
module Steps {
  import opened Sums
  import opened Tables
  import opened Shop
  import opened Requests
  import opened Invariants
  import opened Payments
  import opened Ledger
  import opened Cancelling

  // ---- What is measured ----

  /** Money a request puts into the shop for user `n`. */
  function Recharged(q: Request, r: Reply, n: string): real {
    if q.By? && q.op.RechargeOp? && q.name == n && r == Ok then q.op.amount else 0.0
  }

  ghost predicate Restocks(t: Database, q: Request, r: Reply, c: int) {
    q.By? && q.op.ModifyOp? && q.op.change.Stock? && r == Ok && Named(t, q.op.name) == Some(c)
  }

  /** Goods a request puts into the shop (or takes out, when a merchant lowers the stock). */
  ghost function Supplied(t: Database, q: Request, r: Reply, c: int): int {
    if q.By? && q.op.AddCommodityOp? && r == Ok && c == t.lastCommodity + 1 then q.op.stock
    else if Restocks(t, q, r, c) then q.op.change.storage - t.commodities[c].storage
    else 0
  }

  /** How far the cached stock lies below the stored stock. */
  function Gap(s: State, c: int): int {
    if c in s.shelf && c in s.db.commodities then s.db.commodities[c].storage - s.shelf[c].storage else 0
  }

  /** Goods a checkout puts on an order although the guarded UPDATE left the row alone. */
  function OversoldBy(t: Database, q: Request, r: Reply, c: int): int {
    if q.By? && q.op.CheckoutOp? && q.name in t.users && r.Ordered? && r.checkout.Placed?
    then Oversold(t, CartLines(t, t.users[q.name].id), c) else 0
  }

  /** An immediate checkout gets as far as its payment, and the buyer cannot pay. */
  ghost predicate FailsAtPayment(s: State, uid: int, pay: bool) {
    pay && CartLines(s.db, uid).Keys != {} && WellStocked(s, CartLines(s.db, uid)) && !CanPay(s, uid, CartLines(s.db, uid))
  }

  /** The quantity that such a checkout asks for, when no SQL statement fails before. */
  ghost function LostAtPayment(s: State, q: Request, r: Reply, c: int): int {
    if q.By? && q.op.CheckoutOp? && q.name in s.db.users && s.db.users[q.name].kind == Consumer && r != Ordered(SqlFault)
      && FailsAtPayment(LoadPurses(s, {q.name}), s.db.users[q.name].id, q.op.pay)
    then Quantity(CartLines(s.db, s.db.users[q.name].id), c) else 0
  }

  /** An order keeps its owner, date and lines for good, and its status once it is final. */
  predicate OrderKept(a: OrderRow, b: OrderRow) {
    b.userId == a.userId && b.createdAt == a.createdAt && b.lines == a.lines &&
    (a.status != Pending ==> b.status == a.status)
  }

  ghost predicate OrdersKept(t: Database, t': Database) {
    && t.lastOrder <= t'.lastOrder
    && (forall o :: o in t.orders ==> o in t'.orders && OrderKept(t.orders[o], t'.orders[o]))
    && (forall o :: o in t'.orders && o !in t.orders ==> t.lastOrder < o)
  }

  // ---- Inv ----

  lemma {:induction false} LoadNamedInv(s: State, name: string)
    requires Inv(s)
    ensures Inv(LoadNamed(s, name))
  {
    if Named(s.db, name).Some? { LoadShelvesInv(s, {Named(s.db, name).value}); }
  }

  lemma {:induction false} FaultInv(s: State, op: Op)
    requires Inv(s)
    ensures Inv(AfterFault(s, op))
  {
    match op
    case ModifyOp(name, _) => LoadNamedInv(s, name);
    case AddItemOp(name, _) => LoadNamedInv(s, name);
    case RemoveItemOp(name) => LoadNamedInv(s, name);
    case SetQuantityOp(name, _) => LoadNamedInv(s, name);
    case _ =>
  }

  lemma {:induction false} OperateInv(s: State, n: string, op: Op, r: Reply, s': State)
    requires Inv(s) && n in s.purse && n in s.db.users && Operate(s, n, op, r, s') && Admissible(By(n, op))
    ensures Inv(s')
  {
    if Carried(s, n, op, r, s') { CarriedInv(s, n, op, r, s'); } else { FaultInv(s, op); }
  }

  lemma {:induction false} CarriedInv(s: State, n: string, op: Op, r: Reply, s': State)
    requires Inv(s) && n in s.purse && n in s.db.users && Carried(s, n, op, r, s') && Admissible(By(n, op))
    ensures Inv(s')
  {
    var uid := s.db.users[n].id;
    match op
    case RechargeOp(_, amount) => RechargeInv(s, n, amount);
    case PasswordOp(_, secret) => PasswordInv(s, n, secret);
    case AddCommodityOp(kind, name, price, stock) => AddCommodityInv(s, kind, name, n, price, stock, 1.0);
    case ModifyOp(name, change) => ModifyInv(s, n, name, change);
    case BatchDiscountOp(kind, d) => BatchDiscountInv(s, n, kind, d);
    case AddItemOp(name, q) => CartInv(s, uid, name, q);
    case RemoveItemOp(name) => CartInv(s, uid, name, 0);
    case SetQuantityOp(name, q) => CartInv(s, uid, name, q);
    case CheckoutOp(pay, now) => CheckoutInv(s, uid, pay, now, r.checkout, s');
    case PayOp(o) => PayOrderInv(s, uid, o);
    case CancelOp(o) => if CancelOrder(s, uid, o).1 { CancelInv(s, o); }
  }

  lemma {:induction false} ModifyInv(s: State, n: string, name: string, change: Change)
    requires Inv(s)
    ensures Inv(Modify(s, n, name, change).0)
  {
    if Named(s.db, name).Some? {
      var c := Named(s.db, name).value;
      LoadShelvesInv(s, {c});
      UpdateInv(LoadShelves(s, {c}), c, change);
    }
  }

  lemma {:induction false} CartInv(s: State, uid: int, name: string, q: int)
    requires Inv(s)
    ensures Inv(AddToCart(s, uid, name, q).0) && Inv(RemoveFromCart(s, uid, name).0)
    ensures Inv(UpdateCartQuantity(s, uid, name, q).0)
  {
    if Named(s.db, name).Some? {
      var c := Named(s.db, name).value;
      var s1, cart := LoadShelves(s, {c}), CartOf(s.db, uid);
      LoadShelvesInv(s, {c});
      assert cart.Keys <= s.db.commodities.Keys && CartFine(cart);
      SetCartInv(s1, uid, cart - {c});
      if q > 0 { CartLineInv(s1, uid, c, q); }
    }
  }

  lemma {:induction false} CartLineInv(s: State, uid: int, c: int, q: int)
    requires Inv(s) && c in s.db.commodities && 0 < q
    ensures var cart := CartOf(s.db, uid);
      Inv(SetCart(s, uid, cart[c := (if c in cart then cart[c] else 0) + q])) && Inv(SetCart(s, uid, cart[c := q]))
  {
  }

  lemma {:induction false} CheckoutInv(s: State, uid: int, pay: bool, now: int, r: CheckoutResult, s': State)
    requires Inv(s) && 1 <= uid <= s.db.lastUser && Checkout(s, uid, pay, now, r, s')
    ensures Inv(s')
  {
    var lines := CartLines(s.db, uid);
    CartLinesFine(s, uid);
    match r
    case EmptyCart =>
    case OutOfStock =>
      var seen: set<int> :| seen <= lines.Keys && s' == LoadShelves(s, seen);
      LoadShelvesInv(s, seen);
    case SqlFault => LoadShelvesInv(s, lines.Keys);
    case NoUser => LoweredInv(s, lines);
    case NoFunds =>
      LoweredInv(s, lines);
      LoadPursesInv(s.(shelf := Lowered(s, lines)), set n | n in s.db.users && Found(s, uid, n));
    case Placed(id) =>
      PlaceOrderInv(s, uid, now);
      if pay { PayNowInv(s, uid, now); }
  }

  /** A freshly placed order of the invariant's own kind can be settled right away. */
  lemma {:induction false} PayNowInv(s: State, uid: int, now: int)
    requires Inv(s) && Inv(PlaceOrder(s, uid, now)) && CanPay(s, uid, CartLines(s.db, uid))
    ensures CanPay(PlaceOrder(s, uid, now), uid, CartLines(s.db, uid))
    ensures Inv(Mark(Charge(PlaceOrder(s, uid, now), uid, CartLines(s.db, uid), PerLine), s.db.lastOrder + 1, Paid))
  {
    var lines, s1 := CartLines(s.db, uid), PlaceOrder(s, uid, now);
    var n :| Found(s, uid, n) && Total(lines) <= BalanceOf(s, n);
    assert Found(s1, uid, n) && BalanceOf(s1, n) == BalanceOf(s, n);
    assert LinesFine(s1.db.orders[s.db.lastOrder + 1].lines);
    SettleInv(s1, uid, lines, PerLine, s.db.lastOrder + 1);
  }

  lemma {:induction false} PayOrderInv(s: State, uid: int, o: int)
    requires Inv(s)
    ensures Inv(PayOrder(s, uid, o).0)
  {
    LoadPursesInv(s, set n | n in s.db.users && Found(s, uid, n));
    if PayOrder(s, uid, o).1 == Settlement { SettleInv(s, uid, s.db.orders[o].lines, Grouped, o); }
  }

  lemma {:induction false} StepInv(s: State, q: Request, r: Reply, s': State)
    requires Inv(s) && Step(s, q, r, s') && Admissible(q)
    ensures Inv(s')
  {
    match q
    case Register(kind, n, secret) => RegisterInv(s, kind, n, secret);
    case Reject =>
    case By(n, op) =>
      var s1 := LoadPurses(s, {n});
      LoadPursesInv(s, {n});
      if n in s.db.users && s.db.users[n].kind == Role(op) { OperateInv(s1, n, op, r, s'); }
    case Expire(cutoff) => SweepsAll(s, cutoff, r.count, s');
    case Fill(ids, names) =>
      LoadPursesInv(s, names);
      LoadShelvesInv(LoadPurses(s, names), ids);
  }

  // ---- What the accounts need, kept from any start ----

  lemma {:induction false} TwinPays(s: State, t: State, uid: int, lines: map<int, Line>)
    requires Twins(s, t)
    ensures CanPay(s, uid, lines) <==> CanPay(t, uid, lines)
  {
    forall n ensures Found(s, uid, n) <==> Found(t, uid, n) {}
  }

  lemma {:induction false} TwinCharge(s: State, t: State, uid: int, lines: map<int, Line>, how: Split)
    requires Twins(s, t)
    ensures Twins(Charge(s, uid, lines, how), Charge(t, uid, lines, how))
  {
    forall n | n in s.db.users ensures Settled(s, uid, lines, how, n) == Settled(t, uid, lines, how, n) {
      assert BalanceOf(s, n) == BalanceOf(t, n);
    }
    assert Settlements(s, uid, lines, how) == Settlements(t, uid, lines, how);
  }

  lemma {:induction false} SettleFine(s: State, uid: int, lines: map<int, Line>, how: Split, o: int)
    requires BooksFine(s) && LinesFine(lines) && CanPay(s, uid, lines) && o in s.db.orders
    ensures BooksFine(Mark(Charge(s, uid, lines, how), o, Paid))
  {
    FullInv(s);
    TwinPays(s, Full(s), uid, lines);
    TwinCharge(s, Full(s), uid, lines, how);
    SettleInv(Full(s), uid, lines, how, o);
    TwinFine(Mark(Charge(s, uid, lines, how), o, Paid), Mark(Charge(Full(s), uid, lines, how), o, Paid));
  }

  lemma {:induction false} CancelFine(s: State, o: int)
    requires BooksFine(s) && o in s.db.orders && s.db.orders[o].status == Pending
    ensures BooksFine(CancelInternal(s, o))
  {
    FullInv(s);
    CancelInv(Full(s), o);
    TwinFine(CancelInternal(s, o), CancelInternal(Full(s), o));
  }

  lemma {:induction false} TwinCancelAll(s: State, t: State, ids: seq<int>)
    requires Twins(s, t) && s.shelf.Keys <= s.db.commodities.Keys
    ensures Twins(CancelAll(s, ids), CancelAll(t, ids))
    ensures var s' := CancelAll(s, ids); s'.shelf.Keys <= s'.db.commodities.Keys
    decreases |ids|
  {
    if ids != [] { TwinCancelAll(s, t, ids[..|ids| - 1]); }
  }

  /** A sweep from any start: the tables of the sweep over full shelves. */
  lemma {:induction false} SweepTwin(s: State, cutoff: int, count: int, s': State)
    requires BooksFine(s) && Sweep(s, cutoff, count, s')
    ensures Twins(s', Swept(Full(s), Expired(s.db, cutoff))) && BooksFine(s')
  {
    var gone := Expired(s.db, cutoff);
    var ids: seq<int> :| Enumerates(ids, gone) && count == |ids| && s' == CancelAll(s, ids);
    FullInv(s);
    TwinCancelAll(s, Full(s), ids);
    AnyOrderSweeps(Full(s), ids, gone);
    SweptInv(Full(s), ids, gone);
    TwinFine(s', CancelAll(Full(s), ids));
  }

  lemma {:induction false} SetCartFine(s: State, uid: int, cart: map<int, int>)
    requires BooksFine(s) && cart.Keys <= s.db.commodities.Keys && CartFine(cart)
    ensures BooksFine(SetCart(s, uid, cart))
  {
  }

  lemma {:induction false} CartOpFine(s: State, uid: int, name: string, q: int)
    requires BooksFine(s)
    ensures BooksFine(AddToCart(s, uid, name, q).0) && BooksFine(RemoveFromCart(s, uid, name).0)
    ensures BooksFine(UpdateCartQuantity(s, uid, name, q).0)
  {
    if Named(s.db, name).Some? {
      var c, cart := Named(s.db, name).value, CartOf(s.db, uid);
      var s1 := LoadShelves(s, {c});
      assert cart.Keys <= s.db.commodities.Keys && CartFine(cart);
      SetCartFine(s1, uid, cart - {c});
      if q > 0 {
        SetCartFine(s1, uid, cart[c := (if c in cart then cart[c] else 0) + q]);
        SetCartFine(s1, uid, cart[c := q]);
      }
    }
  }

  lemma {:induction false} OneBalance(t: Database, n: string, x: real)
    requires TablesFine(t) && n in t.users && 0.0 <= x
    ensures TablesFine(t.(users := t.users[n := t.users[n].(balance := x)]))
  {
    UsersChange(t, t.users[n := t.users[n].(balance := x)]);
  }

  lemma {:induction false} RechargeFine(s: State, n: string, amount: real)
    requires BooksFine(s) && n in s.purse && n in s.db.users
    ensures BooksFine(Recharge(s, n, amount).0)
  {
    if 0.0 < amount { OneBalance(s.db, n, s.purse[n] + amount); }
  }

  lemma {:induction false} PasswordFine(s: State, n: string, secret: Option<string>)
    requires BooksFine(s) && n in s.db.users
    ensures BooksFine(SetPassword(s, n, secret).0)
  {
    UsersChange(s.db, SetPassword(s, n, secret).0.db.users);
  }

  lemma {:induction false} AddCommodityFine(s: State, kind: string, name: string, n: string, price: real, stock: int)
    requires BooksFine(s) && n in s.db.users && 0.0 <= price && 0 <= stock
    ensures BooksFine(AddCommodity(s, kind, name, n, price, stock, 1.0).0)
  {
    FullInv(s);
    AddCommodityInv(Full(s), kind, name, n, price, stock, 1.0);
    TwinFine(AddCommodity(s, kind, name, n, price, stock, 1.0).0, AddCommodity(Full(s), kind, name, n, price, stock, 1.0).0);
  }

  lemma {:induction false} UpdateFine(s: State, c: int, change: Change)
    requires BooksFine(s) && c in s.shelf
    ensures BooksFine(Update(s, c, change).0)
  {
    FullInv(s);
    assert c in s.shelf.Keys;
    UpdateInv(Full(s), c, change);
    TwinFine(Update(s, c, change).0, Update(Full(s), c, change).0);
  }

  lemma {:induction false} ModifyFine(s: State, n: string, name: string, change: Change)
    requires BooksFine(s)
    ensures BooksFine(Modify(s, n, name, change).0)
  {
    if Named(s.db, name).Some? {
      var c := Named(s.db, name).value;
      LookedFine(s, {c}, {});
      UpdateFine(LoadShelves(s, {c}), c, change);
    }
  }

  lemma {:induction false} BatchFine(s: State, n: string, kind: string, d: real)
    requires BooksFine(s)
    ensures BooksFine(BatchDiscount(s, n, kind, d).0)
  {
    FullInv(s);
    BatchDiscountInv(Full(s), n, kind, d);
    TwinFine(BatchDiscount(s, n, kind, d).0, BatchDiscount(Full(s), n, kind, d).0);
  }

  /** The payer is who asked. */
  lemma {:induction false} PlacedPays(s: State, uid: int, now: int)
    requires CanPay(s, uid, CartLines(s.db, uid))
    ensures CanPay(PlaceOrder(s, uid, now), uid, CartLines(s.db, uid))
  {
    var n :| Found(s, uid, n) && Total(CartLines(s.db, uid)) <= BalanceOf(s, n);
    assert Found(PlaceOrder(s, uid, now), uid, n) && BalanceOf(PlaceOrder(s, uid, now), n) == BalanceOf(s, n);
  }

  lemma {:induction false} PayNowFine(s: State, uid: int, now: int)
    requires BooksFine(s) && 1 <= uid <= s.db.lastUser && CanPay(s, uid, CartLines(s.db, uid))
    ensures BooksFine(Mark(Charge(PlaceOrder(s, uid, now), uid, CartLines(s.db, uid), PerLine), s.db.lastOrder + 1, Paid))
  {
    PlaceOrderFine(s, uid, now);
    PlacedPays(s, uid, now);
    CartLinesFine(s, uid);
    SettleFine(PlaceOrder(s, uid, now), uid, CartLines(s.db, uid), PerLine, s.db.lastOrder + 1);
  }

  lemma {:induction false} CheckoutFine(s: State, uid: int, pay: bool, now: int, r: CheckoutResult, s': State)
    requires BooksFine(s) && 1 <= uid <= s.db.lastUser && Checkout(s, uid, pay, now, r, s')
    ensures BooksFine(s')
  {
    if r.Placed? {
      PlaceOrderFine(s, uid, now);
      if pay { PayNowFine(s, uid, now); }
    } else {
      assert s'.db == s.db;
    }
  }

  lemma {:induction false} PayOrderFine(s: State, uid: int, o: int)
    requires BooksFine(s)
    ensures BooksFine(PayOrder(s, uid, o).0)
  {
    if PayOrder(s, uid, o).1 == Settlement {
      SettleFine(s, uid, s.db.orders[o].lines, Grouped, o);
    } else {
      assert PayOrder(s, uid, o).0.db == s.db;
    }
  }

  lemma {:induction false} MerchantFine(s: State, n: string, op: Op, r: Reply, s': State)
    requires BooksFine(s) && n in s.purse && n in s.db.users && Carried(s, n, op, r, s') && Admissible(By(n, op))
    requires op.RechargeOp? || op.PasswordOp? || op.AddCommodityOp? || op.ModifyOp? || op.BatchDiscountOp?
    ensures BooksFine(s')
  {
    match op
    case RechargeOp(_, amount) => RechargeFine(s, n, amount);
    case PasswordOp(_, secret) => PasswordFine(s, n, secret);
    case AddCommodityOp(kind, name, price, stock) => AddCommodityFine(s, kind, name, n, price, stock);
    case ModifyOp(name, change) => ModifyFine(s, n, name, change);
    case BatchDiscountOp(kind, d) => BatchFine(s, n, kind, d);
  }

  lemma {:induction false} CartOpsFine(s: State, n: string, op: Op, r: Reply, s': State)
    requires BooksFine(s) && n in s.purse && n in s.db.users && Carried(s, n, op, r, s')
    requires op.AddItemOp? || op.RemoveItemOp? || op.SetQuantityOp?
    ensures BooksFine(s')
  {
    var uid := s.db.users[n].id;
    match op
    case AddItemOp(name, q) => CartOpFine(s, uid, name, q);
    case RemoveItemOp(name) => CartOpFine(s, uid, name, 0);
    case SetQuantityOp(name, q) => CartOpFine(s, uid, name, q);
  }

  lemma {:induction false} OrderFine(s: State, n: string, op: Op, r: Reply, s': State)
    requires BooksFine(s) && n in s.purse && n in s.db.users && Carried(s, n, op, r, s')
    requires op.CheckoutOp? || op.PayOp? || op.CancelOp?
    ensures BooksFine(s')
  {
    var uid := s.db.users[n].id;
    match op
    case CheckoutOp(pay, now) => CheckoutFine(s, uid, pay, now, r.checkout, s');
    case PayOp(o) => PayOrderFine(s, uid, o);
    case CancelOp(o) => if CancelOrder(s, uid, o).1 { CancelFine(s, o); }
  }

  lemma {:induction false} NamedFine(s: State, name: string)
    requires BooksFine(s)
    ensures BooksFine(LoadNamed(s, name))
  {
    if Named(s.db, name).Some? { LookedFine(s, {Named(s.db, name).value}, {}); }
  }

  lemma {:induction false} FaultFine(s: State, op: Op)
    requires BooksFine(s)
    ensures BooksFine(AfterFault(s, op))
  {
    match op
    case ModifyOp(name, _) => NamedFine(s, name);
    case AddItemOp(name, _) => NamedFine(s, name);
    case RemoveItemOp(name) => NamedFine(s, name);
    case SetQuantityOp(name, _) => NamedFine(s, name);
    case _ =>
  }

  lemma {:induction false} OperateFine(s: State, n: string, op: Op, r: Reply, s': State)
    requires BooksFine(s) && n in s.purse && n in s.db.users && Operate(s, n, op, r, s') && Admissible(By(n, op))
    ensures BooksFine(s')
  {
    if !Carried(s, n, op, r, s') {
      FaultFine(s, op);
    } else if op.AddItemOp? || op.RemoveItemOp? || op.SetQuantityOp? {
      CartOpsFine(s, n, op, r, s');
    } else if op.CheckoutOp? || op.PayOp? || op.CancelOp? {
      OrderFine(s, n, op, r, s');
    } else {
      MerchantFine(s, n, op, r, s');
    }
  }

  lemma {:induction false} LookedFine(s: State, ids: set<int>, names: set<string>)
    requires BooksFine(s)
    ensures BooksFine(Looked(s, ids, names)) && BooksFine(LoadPurses(s, names)) && BooksFine(LoadShelves(s, ids))
  {
  }

  /** Every request keeps the tables fine and cached balances exact, wherever the run started. */
  lemma {:induction false} StepFine(s: State, q: Request, r: Reply, s': State)
    requires BooksFine(s) && Step(s, q, r, s') && Admissible(q)
    ensures BooksFine(s')
  {
    match q
    case Register(kind, n, secret) => NewUserFine(s, kind, n, secret);
    case Reject =>
    case By(n, op) =>
      LookedFine(s, {}, {n});
      if n in s.db.users && s.db.users[n].kind == Role(op) { OperateFine(LoadPurses(s, {n}), n, op, r, s'); }
    case Expire(cutoff) => SweepTwin(s, cutoff, r.count, s');
    case Fill(ids, names) => LookedFine(s, ids, names);
  }

  // ---- The accounts ----

  predicate GoodsOp(op: Op) {
    op.ModifyOp? || op.BatchDiscountOp? || op.AddItemOp? || op.RemoveItemOp? || op.SetQuantityOp?
  }

  lemma {:induction false} CartOnly(s: State, n: string, op: Op, r: Reply, s': State)
    requires n in s.purse && n in s.db.users && Carried(s, n, op, r, s')
    requires op.AddItemOp? || op.RemoveItemOp? || op.SetQuantityOp?
    ensures s'.db == s.db.(carts := s'.db.carts)
  {
  }

  lemma {:induction false} BatchGoods(s: State, n: string, kind: string, d: real)
    ensures var t := BatchDiscount(s, n, kind, d).0.db;
      && t == s.db.(commodities := t.commodities) && SameGoods(s.db.commodities, t.commodities)
      && forall c :: c in s.db.commodities ==> t.commodities[c].storage == s.db.commodities[c].storage
  {
  }

  /** These touch no user and no order; only a restocking touches the stored stock. */
  lemma {:induction false} GoodsOnly(s: State, n: string, op: Op, r: Reply, s': State)
    requires n in s.purse && n in s.db.users && Operate(s, n, op, r, s') && GoodsOp(op)
    ensures s'.db.users == s.db.users && s'.db.orders == s.db.orders && s'.db.lastOrder == s.db.lastOrder
    ensures SameGoods(s.db.commodities, s'.db.commodities)
    ensures forall c :: c in s.db.commodities ==> s'.db.commodities[c].storage == StockAfter(s.db, By(n, op), r, c)
  {
    if !Carried(s, n, op, r, s') {
      assert s' == AfterFault(s, op);
    } else if op.ModifyOp? {
      ModifyGoods(s, n, op, r, s');
    } else if op.BatchDiscountOp? {
      BatchGoods(s, n, op.kind, op.discount);
    } else {
      CartOnly(s, n, op, r, s');
    }
  }

  ghost function StockAfter(t: Database, q: Request, r: Reply, c: int): int
    requires c in t.commodities
  {
    if Restocks(t, q, r, c) then q.op.change.storage else t.commodities[c].storage
  }

  lemma {:induction false} ModifyGoods(s: State, n: string, op: Op, r: Reply, s': State)
    requires n in s.purse && n in s.db.users && Carried(s, n, op, r, s') && op.ModifyOp?
    ensures s'.db.users == s.db.users && s'.db.orders == s.db.orders && s'.db.lastOrder == s.db.lastOrder
    ensures SameGoods(s.db.commodities, s'.db.commodities)
    ensures forall c :: c in s.db.commodities ==> s'.db.commodities[c].storage == StockAfter(s.db, By(n, op), r, c)
  {
  }

  lemma {:induction false} RechargeBooks(s: State, n: string, amount: real, m: string, c: int)
    requires n in s.purse && n in s.db.users && 0.0 < amount
    ensures var t := Recharge(s, n, amount).0.db;
      s.purse[n] == s.db.users[n].balance ==>
      Worth(t, m) == Worth(s.db, m) + (if m == n then amount else 0.0) && Supply(t, c) == Supply(s.db, c)
  {
  }

  lemma {:induction false} PasswordBooks(s: State, n: string, secret: Option<string>, m: string, c: int)
    requires n in s.db.users
    ensures var t := SetPassword(s, n, secret).0.db; Worth(t, m) == Worth(s.db, m) && Supply(t, c) == Supply(s.db, c)
  {
  }

  lemma {:induction false} PayOrderBooks(s: State, uid: int, o: int, m: string, c: int)
    requires BooksFine(s)
    ensures Worth(PayOrder(s, uid, o).0.db, m) == Worth(s.db, m)
    ensures Supply(PayOrder(s, uid, o).0.db, c) == Supply(s.db, c)
  {
    if PayOrder(s, uid, o).1 == Settlement {
      SettleBooks(s, Grouped, o, m, c);
    } else {
      assert PayOrder(s, uid, o).0.db == s.db;
    }
  }

  lemma {:induction false} CancelOrderBooks(s: State, uid: int, o: int, m: string, c: int)
    requires BooksFine(s)
    ensures Worth(CancelOrder(s, uid, o).0.db, m) == Worth(s.db, m)
    ensures Supply(CancelOrder(s, uid, o).0.db, c) == Supply(s.db, c)
  {
    if CancelOrder(s, uid, o).1 { CancelBooks(s, o, m, c); }
  }

  lemma {:induction false} OperateBooks(s: State, n: string, op: Op, r: Reply, s': State, m: string, c: int)
    requires BooksFine(s) && n in s.purse && n in s.db.users && Operate(s, n, op, r, s')
    ensures Worth(s'.db, m) == Worth(s.db, m) + Recharged(By(n, op), r, m)
    ensures Supply(s'.db, c) == Supply(s.db, c) + Supplied(s.db, By(n, op), r, c) + OversoldBy(s.db, By(n, op), r, c)
  {
    if GoodsOp(op) {
      GoodsOnly(s, n, op, r, s');
      RowsChangeBooks(s.db, s'.db, m, c);
    } else if Carried(s, n, op, r, s') {
      CarriedBooks(s, n, op, r, s', m, c);
    }
  }

  lemma {:induction false} CarriedBooks(s: State, n: string, op: Op, r: Reply, s': State, m: string, c: int)
    requires BooksFine(s) && n in s.purse && n in s.db.users && Carried(s, n, op, r, s') && !GoodsOp(op)
    ensures Worth(s'.db, m) == Worth(s.db, m) + Recharged(By(n, op), r, m)
    ensures Supply(s'.db, c) == Supply(s.db, c) + Supplied(s.db, By(n, op), r, c) + OversoldBy(s.db, By(n, op), r, c)
  {
    var uid := s.db.users[n].id;
    match op
    case RechargeOp(_, amount) => if r == Ok { RechargeBooks(s, n, amount, m, c); }
    case PasswordOp(_, secret) => PasswordBooks(s, n, secret, m, c);
    case AddCommodityOp(kind, name, price, stock) =>
      NewCommodityBooks(s, CommodityRow(name, kind, n, price, 1.0, stock), m, c);
    case CheckoutOp(pay, now) => CheckoutBooks(s, uid, pay, now, r.checkout, s', m, c);
    case PayOp(o) => PayOrderBooks(s, uid, o, m, c);
    case CancelOp(o) => CancelOrderBooks(s, uid, o, m, c);
    case _ =>
  }

  lemma {:induction false} PlacedOrder(s: State, uid: int, now: int)
    ensures var s1, id := PlaceOrder(s, uid, now), s.db.lastOrder + 1;
      id in s1.db.orders && s1.db.orders == s.db.orders[id := OrderRow(uid, Pending, now, CartLines(s.db, uid))]
  {
  }

  lemma {:induction false} PaidOrderBooks(s: State, uid: int, now: int, m: string, c: int)
    requires BooksFine(s) && 1 <= uid <= s.db.lastUser && CanPay(s, uid, CartLines(s.db, uid))
    ensures var t := Mark(Charge(PlaceOrder(s, uid, now), uid, CartLines(s.db, uid), PerLine), s.db.lastOrder + 1, Paid).db;
      Worth(t, m) == Worth(s.db, m) && Supply(t, c) == Supply(s.db, c) + Oversold(s.db, CartLines(s.db, uid), c)
  {
    PlaceOrderBooks(s, uid, now, m, c);
    PlaceOrderFine(s, uid, now);
    PlacedPays(s, uid, now);
    PlacedOrder(s, uid, now);
    SettledBooks(PlaceOrder(s, uid, now), uid, CartLines(s.db, uid), s.db.lastOrder + 1, m, c);
  }

  lemma {:induction false} SettledBooks(s: State, uid: int, lines: map<int, Line>, o: int, m: string, c: int)
    requires BooksFine(s) && o in s.db.orders && CanPay(s, uid, lines)
    requires s.db.orders[o].status == Pending && s.db.orders[o].userId == uid && s.db.orders[o].lines == lines
    ensures Worth(Mark(Charge(s, uid, lines, PerLine), o, Paid).db, m) == Worth(s.db, m)
    ensures Supply(Mark(Charge(s, uid, lines, PerLine), o, Paid).db, c) == Supply(s.db, c)
  {
    SettleBooks(s, PerLine, o, m, c);
  }

  lemma {:induction false} CheckoutBooks(s: State, uid: int, pay: bool, now: int, r: CheckoutResult, s': State, m: string, c: int)
    requires BooksFine(s) && 1 <= uid <= s.db.lastUser && Checkout(s, uid, pay, now, r, s')
    ensures Worth(s'.db, m) == Worth(s.db, m)
    ensures Supply(s'.db, c) == Supply(s.db, c) + if r.Placed? then Oversold(s.db, CartLines(s.db, uid), c) else 0
  {
    if r.Placed? {
      if pay { PaidOrderBooks(s, uid, now, m, c); } else { PlaceOrderBooks(s, uid, now, m, c); }
    } else {
      assert s'.db == s.db;
    }
  }

  lemma {:induction false} ExpireBooks(s: State, cutoff: int, count: int, s': State, m: string, c: int)
    requires BooksFine(s) && Sweep(s, cutoff, count, s')
    ensures Worth(s'.db, m) == Worth(s.db, m) && Supply(s'.db, c) == Supply(s.db, c)
  {
    var ids: seq<int> :| Enumerates(ids, Expired(s.db, cutoff)) && s' == CancelAll(s, ids);
    FullInv(s);
    TwinCancelAll(s, Full(s), ids);
    SweepBooks(Full(s), ids, Expired(s.db, cutoff), m, c);
  }

  /** Wherever the run started, serving a request changes a user's worth by what the user
    recharged, and the supply of a commodity by what its merchant added and what a checkout
    put on an order although the guarded UPDATE did not match. */
  lemma {:induction false} StepBooks(s: State, q: Request, r: Reply, s': State, m: string, c: int)
    requires BooksFine(s) && Step(s, q, r, s')
    ensures Worth(s'.db, m) == Worth(s.db, m) + Recharged(q, r, m)
    ensures Supply(s'.db, c) == Supply(s.db, c) + Supplied(s.db, q, r, c) + OversoldBy(s.db, q, r, c)
  {
    match q
    case Register(kind, n, secret) => NewUserBooks(s, kind, n, secret, m, c);
    case Reject =>
    case By(n, op) =>
      LookedFine(s, {}, {n});
      if n in s.db.users && s.db.users[n].kind == Role(op) { OperateBooks(LoadPurses(s, {n}), n, op, r, s', m, c); }
    case Expire(cutoff) => ExpireBooks(s, cutoff, r.count, s', m, c);
    case Fill(ids, names) =>
  }

  /** While cached stock never exceeds stored stock, the guard always matches. */
  lemma {:induction false} NeverOversold(s: State, q: Request, r: Reply, s': State, c: int)
    requires Inv(s) && Step(s, q, r, s')
    ensures OversoldBy(s.db, q, r, c) == 0
  {
    if OversoldBy(s.db, q, r, c) != 0 {
      var n := q.name;
      var s1 := LoadPurses(s, {n});
      LoadPursesInv(s, {n});
      CartLinesFine(s1, s.db.users[n].id);
      LoweredFits(s1, CartLines(s1.db, s.db.users[n].id));
    }
  }

  // ---- How a checkout is refused ----

  /** Known before the call: an immediate checkout of a well-stocked cart is refused at payment
    exactly when the buyer cannot pay, provided no SQL statement fails. */
  lemma {:induction false} RefusedAtPayment(s: State, uid: int, pay: bool, now: int, r: CheckoutResult, s': State)
    requires Checkout(s, uid, pay, now, r, s') && r != SqlFault
    ensures r.NoUser? || r.NoFunds? <==> FailsAtPayment(s, uid, pay)
    ensures r.Placed? <==> CartLines(s.db, uid).Keys != {} && WellStocked(s, CartLines(s.db, uid)) && !FailsAtPayment(s, uid, pay)
  {
    if r.NoUser? { assert !CanPay(s, uid, CartLines(s.db, uid)); }
  }

  /** Of the refused checkouts, exactly those of an empty or badly stocked cart leave every
    look-up as it was; the others lower what look-ups see. */
  lemma {:induction false} RefusalShows(s: State, uid: int, pay: bool, now: int, r: CheckoutResult, s': State)
    requires Inv(s) && Checkout(s, uid, pay, now, r, s') && !r.Placed? && r != SqlFault
    ensures (forall c :: c in s.db.commodities ==> c in s'.db.commodities && ShelfOf(s', c) == ShelfOf(s, c))
      <==> CartLines(s.db, uid).Keys == {} || !WellStocked(s, CartLines(s.db, uid))
  {
    var lines := CartLines(s.db, uid);
    CartLinesFine(s, uid);
    if r.NoUser? || r.NoFunds? {
      var c := Pick(lines);
      assert c in s.db.commodities && 0 < lines[c].quantity;
      assert ShelfOf(s', c).storage == ShelfOf(s, c).storage - lines[c].quantity;
    }
  }

  // ---- The cached stock ----

  /** Taking stock from row and cache alike keeps their distance; taking it from the cache alone
    widens it. */
  lemma {:induction false} LoweredGap(s: State, lines: map<int, Line>, c: int)
    requires Inv(s) && lines.Keys <= s.db.commodities.Keys && LinesFine(lines) && WellStocked(s, lines)
    ensures Gap(State(s.db.(commodities := Taken(s.db.commodities, lines)), Lowered(s, lines), s.purse), c) == Gap(s, c)
    ensures Gap(s.(shelf := Lowered(s, lines)), c) == Gap(s, c) + Quantity(lines, c)
  {
    LoweredFits(s, lines);
  }

  lemma {:induction false} SameGap(s: State, t: State, c: int)
    requires t.shelf == s.shelf && t.db.commodities == s.db.commodities
    ensures Gap(t, c) == Gap(s, c)
  {
  }

  lemma {:induction false} PlacedGap(s: State, uid: int, pay: bool, now: int, id: int, s': State, c: int)
    requires Inv(s) && Checkout(s, uid, pay, now, Placed(id), s')
    ensures Gap(s', c) == Gap(s, c)
  {
    var lines := CartLines(s.db, uid);
    CartLinesFine(s, uid);
    LoweredGap(s, lines, c);
    SameGap(State(s.db.(commodities := Taken(s.db.commodities, lines)), Lowered(s, lines), s.purse), s', c);
  }

  lemma {:induction false} RefusedGap(s: State, uid: int, pay: bool, now: int, r: CheckoutResult, s': State, c: int)
    requires Inv(s) && Checkout(s, uid, pay, now, r, s') && (r.NoUser? || r.NoFunds?)
    ensures Gap(s', c) == Gap(s, c) + Quantity(CartLines(s.db, uid), c)
  {
    var lines := CartLines(s.db, uid);
    CartLinesFine(s, uid);
    LoweredGap(s, lines, c);
    SameGap(s.(shelf := Lowered(s, lines)), s', c);
  }

  lemma {:induction false} CheckoutGap(s: State, uid: int, pay: bool, now: int, r: CheckoutResult, s': State, c: int)
    requires Inv(s) && Checkout(s, uid, pay, now, r, s')
    ensures Gap(s', c) == Gap(s, c)
      + if r != SqlFault && FailsAtPayment(s, uid, pay) then Quantity(CartLines(s.db, uid), c) else 0
  {
    if r != SqlFault { RefusedAtPayment(s, uid, pay, now, r, s'); }
    if r.NoUser? || r.NoFunds? {
      RefusedGap(s, uid, pay, now, r, s', c);
    } else if r.Placed? {
      PlacedGap(s, uid, pay, now, r.id, s', c);
    } else {
      assert s'.db == s.db;
    }
  }

  lemma {:induction false} GoodsGap(s: State, n: string, op: Op, r: Reply, s': State, c: int)
    requires Valid(s) && n in s.purse && Carried(s, n, op, r, s') && GoodsOp(op)
    ensures Gap(s', c) == if Restocks(s.db, By(n, op), r, c) then 0 else Gap(s, c)
  {
  }

  lemma {:induction false} FaultGap(s: State, op: Op, c: int)
    ensures Gap(AfterFault(s, op), c) == Gap(s, c)
  {
  }

  lemma {:induction false} OperateGap(s: State, n: string, op: Op, r: Reply, s': State, c: int)
    requires Inv(s) && n in s.purse && n in s.db.users && s.db.users[n].kind == Role(op) && Operate(s, n, op, r, s')
    ensures Gap(s', c) == if Restocks(s.db, By(n, op), r, c) then 0 else Gap(s, c) + LostAtPayment(s, By(n, op), r, c)
  {
    InvValid(s);
    if op.CheckoutOp? {
      WithPursesOne(s.purse, s.db.users, n);
      CheckoutGap(s, s.db.users[n].id, op.pay, op.now, r.checkout, s', c);
    } else if !Carried(s, n, op, r, s') {
      FaultGap(s, op, c);
    } else if GoodsOp(op) {
      GoodsGap(s, n, op, r, s', c);
    } else if op.AddCommodityOp? {
      assert s.db.lastCommodity + 1 !in s.db.commodities;
    } else if op.CancelOp? && r == Ok {
      assert s.db.orders[op.order].lines.Keys <= s.shelf.Keys;
    }
  }

  lemma {:induction false} LoadedTwice(s: State, n: string)
    ensures LoadPurses(LoadPurses(s, {n}), {n}) == LoadPurses(s, {n})
  {
  }

  lemma {:induction false} ByGap(s: State, s1: State, n: string, op: Op, r: Reply, s': State, c: int)
    requires Inv(s) && s1 == LoadPurses(s, {n}) && n in s.db.users && s.db.users[n].kind == Role(op) && Operate(s1, n, op, r, s')
    ensures Gap(s', c) == if Restocks(s.db, By(n, op), r, c) then 0 else Gap(s, c) + LostAtPayment(s, By(n, op), r, c)
  {
    LoadPursesInv(s, {n});
    LoadedTwice(s, n);
    OperateGap(s1, n, op, r, s', c);
  }

  /** The cached stock falls behind the stored stock by exactly what immediate checkouts asked
    for that reached their payment and could not pay, until the merchant sets the stock anew. */
  lemma {:induction false} StepGap(s: State, q: Request, r: Reply, s': State, c: int)
    requires Inv(s) && Step(s, q, r, s')
    ensures Gap(s', c) == if Restocks(s.db, q, r, c) then 0 else Gap(s, c) + LostAtPayment(s, q, r, c)
  {
    match q
    case Register(kind, n, secret) =>
    case Reject =>
    case By(n, op) =>
      if n in s.db.users && s.db.users[n].kind == Role(op) { ByGap(s, LoadPurses(s, {n}), n, op, r, s', c); }
    case Expire(cutoff) => SweepsAll(s, cutoff, r.count, s');
    case Fill(ids, names) =>
  }

  // ---- The orders ----

  lemma {:induction false} OrdersGain(t: Database, t': Database, row: OrderRow)
    requires OrdersSound(t.orders, t.lastOrder, t.commodities.Keys)
    requires t'.orders == t.orders[t.lastOrder + 1 := row] && t'.lastOrder == t.lastOrder + 1
    ensures OrdersKept(t, t')
  {
  }

  lemma {:induction false} PaidOrders(s: State, uid: int, lines: map<int, Line>, how: Split, o: int)
    requires o in s.db.orders
    ensures Mark(Charge(s, uid, lines, how), o, Paid).db.orders == s.db.orders[o := s.db.orders[o].(status := Paid)]
    ensures Mark(Charge(s, uid, lines, how), o, Paid).db.lastOrder == s.db.lastOrder
  {
  }

  lemma {:induction false} PlacedGain(s: State, uid: int, now: int)
    requires OrdersSound(s.db.orders, s.db.lastOrder, s.db.commodities.Keys)
    ensures var s1 := PlaceOrder(s, uid, now);
      && OrdersKept(s.db, s1.db)
      && OrdersKept(s.db, Mark(Charge(s1, uid, CartLines(s.db, uid), PerLine), s.db.lastOrder + 1, Paid).db)
  {
    var s1, id, lines := PlaceOrder(s, uid, now), s.db.lastOrder + 1, CartLines(s.db, uid);
    PlacedOrder(s, uid, now);
    PaidOrders(s1, uid, lines, PerLine, id);
    OrdersGain(s.db, s1.db, OrderRow(uid, Pending, now, lines));
    OrdersGain(s.db, Mark(Charge(s1, uid, lines, PerLine), id, Paid).db, OrderRow(uid, Paid, now, lines));
  }

  lemma {:induction false} CheckoutOrders(s: State, uid: int, pay: bool, now: int, r: CheckoutResult, s': State)
    requires OrdersSound(s.db.orders, s.db.lastOrder, s.db.commodities.Keys) && Checkout(s, uid, pay, now, r, s')
    ensures OrdersKept(s.db, s'.db)
  {
    if r.Placed? {
      PlacedGain(s, uid, now);
    } else {
      assert s'.db == s.db;
    }
  }

  lemma {:induction false} PayOrders(s: State, uid: int, o: int)
    ensures OrdersKept(s.db, PayOrder(s, uid, o).0.db)
  {
    if PayOrder(s, uid, o).1 == Settlement {
      PaidOrders(s, uid, s.db.orders[o].lines, Grouped, o);
    } else {
      assert PayOrder(s, uid, o).0.db == s.db;
    }
  }

  lemma {:induction false} CancelOrders(s: State, uid: int, o: int)
    ensures OrdersKept(s.db, CancelOrder(s, uid, o).0.db)
  {
  }

  lemma {:induction false} OperateOrders(s: State, n: string, op: Op, r: Reply, s': State)
    requires Sound(s.db) && n in s.purse && n in s.db.users && Operate(s, n, op, r, s')
    ensures OrdersKept(s.db, s'.db)
  {
    var uid := s.db.users[n].id;
    if GoodsOp(op) {
      GoodsOnly(s, n, op, r, s');
    } else if !Carried(s, n, op, r, s') {
      assert s' == s;
    } else if op.CheckoutOp? {
      CheckoutOrders(s, uid, op.pay, op.now, r.checkout, s');
    } else if op.PayOp? {
      PayOrders(s, uid, op.order);
    } else if op.CancelOp? {
      CancelOrders(s, uid, op.order);
    }
  }

  lemma {:induction false} ExpireOrders(s: State, cutoff: int, count: int, s': State)
    requires BooksFine(s) && Sweep(s, cutoff, count, s')
    ensures OrdersKept(s.db, s'.db)
  {
    SweepTwin(s, cutoff, count, s');
  }

  lemma {:induction false} StepOrders(s: State, q: Request, r: Reply, s': State)
    requires BooksFine(s) && Step(s, q, r, s')
    ensures OrdersKept(s.db, s'.db)
  {
    match q
    case Register(kind, n, secret) =>
    case Reject =>
    case By(n, op) =>
      if n in s.db.users && s.db.users[n].kind == Role(op) { OperateOrders(LoadPurses(s, {n}), n, op, r, s'); }
    case Expire(cutoff) => ExpireOrders(s, cutoff, r.count, s');
    case Fill(ids, names) =>
  }

  // ---- What no request takes away ----

  predicate SameGood(a: CommodityRow, b: CommodityRow) {
    b.name == a.name && b.kind == a.kind && b.merchant == a.merchant
  }

  /** Users and commodities stay, with their ids, kinds, names and merchants. */
  ghost predicate RowsKept(t: Database, t': Database) {
    && (forall n :: n in t.users ==> n in t'.users && t'.users[n].id == t.users[n].id && t'.users[n].kind == t.users[n].kind)
    && (forall c :: c in t.commodities ==> c in t'.commodities && SameGood(t.commodities[c], t'.commodities[c]))
  }

  lemma {:induction false} SettledRows(s: State, uid: int, lines: map<int, Line>, how: Split, o: int)
    ensures RowsKept(s.db, Mark(Charge(s, uid, lines, how), o, Paid).db)
  {
    var balances, users := Settlements(s, uid, lines, how), s.db.users;
    assert Charge(s, uid, lines, how).db == s.db.(users := WriteBalances(users, balances));
  }

  lemma {:induction false} PlacedRows(s: State, uid: int, now: int)
    ensures RowsKept(s.db, PlaceOrder(s, uid, now).db)
  {
  }

  lemma {:induction false} CheckoutRows(s: State, uid: int, pay: bool, now: int, r: CheckoutResult, s': State)
    requires Checkout(s, uid, pay, now, r, s')
    ensures RowsKept(s.db, s'.db)
  {
    if r.Placed? {
      PlacedRows(s, uid, now);
      SettledRows(PlaceOrder(s, uid, now), uid, CartLines(s.db, uid), PerLine, s.db.lastOrder + 1);
    } else {
      assert s'.db == s.db;
    }
  }

  lemma {:induction false} PayRows(s: State, uid: int, o: int)
    ensures RowsKept(s.db, PayOrder(s, uid, o).0.db)
  {
    if PayOrder(s, uid, o).1 == Settlement {
      SettledRows(s, uid, s.db.orders[o].lines, Grouped, o);
    } else {
      assert PayOrder(s, uid, o).0.db == s.db;
    }
  }

  lemma {:induction false} OperateRows(s: State, n: string, op: Op, r: Reply, s': State)
    requires Sound(s.db) && n in s.purse && n in s.db.users && Operate(s, n, op, r, s')
    ensures RowsKept(s.db, s'.db)
  {
    if GoodsOp(op) {
      GoodsOnly(s, n, op, r, s');
    } else if !Carried(s, n, op, r, s') {
      assert s' == s;
    } else if op.CheckoutOp? {
      CheckoutRows(s, s.db.users[n].id, op.pay, op.now, r.checkout, s');
    } else if op.PayOp? {
      PayRows(s, s.db.users[n].id, op.order);
    }
  }

  lemma {:induction false} ExpireRows(s: State, cutoff: int, count: int, s': State)
    requires BooksFine(s) && Sweep(s, cutoff, count, s')
    ensures RowsKept(s.db, s'.db)
  {
    SweepTwin(s, cutoff, count, s');
  }

  lemma {:induction false} StepRows(s: State, q: Request, r: Reply, s': State)
    requires BooksFine(s) && Step(s, q, r, s')
    ensures RowsKept(s.db, s'.db)
  {
    match q
    case Register(kind, n, secret) =>
    case Reject =>
    case By(n, op) =>
      if n in s.db.users && s.db.users[n].kind == Role(op) { OperateRows(LoadPurses(s, {n}), n, op, r, s'); }
    case Expire(cutoff) => ExpireRows(s, cutoff, r.count, s');
    case Fill(ids, names) =>
  }

  // ---- Which answers tell that an order was paid or put back ----

  ghost predicate Pays(q: Request, r: Reply, o: int) {
    && q.By?
    && ((q.op == PayOp(o) && r == Payment(Settlement))
        || (q.op.CheckoutOp? && q.op.pay && r == Ordered(Placed(o))))
  }

  ghost predicate PutsBack(t: Database, q: Request, r: Reply, o: int) {
    || (q.By? && q.op == CancelOp(o) && r == Ok)
    || (q.Expire? && o in t.orders && t.orders[o].status == Pending && t.orders[o].createdAt < q.cutoff)
  }

  /** The order reaches `status`, from PENDING or from not being there. */
  ghost predicate Turns(orders: map<int, OrderRow>, orders': map<int, OrderRow>, o: int, status: Status) {
    o in orders' && orders'[o].status == status && (o in orders ==> orders[o].status == Pending)
  }

  lemma {:induction false} NewTurns(orders: map<int, OrderRow>, id: int, row: OrderRow, o: int, status: Status)
    requires id !in orders && status != Pending
    ensures Turns(orders, orders[id := row], o, status) <==> o == id && row.status == status
  {
  }

  lemma {:induction false} PlacedTurns(s: State, uid: int, now: int, o: int)
    requires s.db.lastOrder + 1 !in s.db.orders
    ensures var s1, id := PlaceOrder(s, uid, now), s.db.lastOrder + 1;
      var s2 := Mark(Charge(s1, uid, CartLines(s.db, uid), PerLine), id, Paid);
      && !Turns(s.db.orders, s1.db.orders, o, Paid) && !Turns(s.db.orders, s1.db.orders, o, Cancelled)
      && (Turns(s.db.orders, s2.db.orders, o, Paid) <==> o == id) && !Turns(s.db.orders, s2.db.orders, o, Cancelled)
  {
    var s1, id, row := PlaceOrder(s, uid, now), s.db.lastOrder + 1, OrderRow(uid, Pending, now, CartLines(s.db, uid));
    PlacedOrder(s, uid, now);
    PaidOrders(s1, uid, CartLines(s.db, uid), PerLine, id);
    assert s1.db.orders[id := row.(status := Paid)] == s.db.orders[id := row.(status := Paid)];
    forall status: Status | status != Pending
      ensures Turns(s.db.orders, s1.db.orders, o, status) <==> o == id && row.status == status
    {
      NewTurns(s.db.orders, id, row, o, status);
    }
    NewTurns(s.db.orders, id, row.(status := Paid), o, Paid);
    NewTurns(s.db.orders, id, row.(status := Paid), o, Cancelled);
  }

  lemma {:induction false} CheckoutTurns(s: State, uid: int, pay: bool, now: int, r: CheckoutResult, s': State, o: int)
    requires OrdersSound(s.db.orders, s.db.lastOrder, s.db.commodities.Keys) && Checkout(s, uid, pay, now, r, s')
    ensures Turns(s.db.orders, s'.db.orders, o, Paid) <==> pay && r == Placed(o)
    ensures !Turns(s.db.orders, s'.db.orders, o, Cancelled)
  {
    if r.Placed? {
      PlacedTurns(s, uid, now, o);
    } else {
      assert s'.db == s.db;
    }
  }

  lemma {:induction false} PayTurns(s: State, uid: int, p: int, o: int)
    ensures var (s', r) := PayOrder(s, uid, p);
      && (Turns(s.db.orders, s'.db.orders, o, Paid) <==> p == o && r == Settlement)
      && !Turns(s.db.orders, s'.db.orders, o, Cancelled)
  {
    if PayOrder(s, uid, p).1 == Settlement {
      PaidOrders(s, uid, s.db.orders[p].lines, Grouped, p);
    } else {
      assert PayOrder(s, uid, p).0.db == s.db;
    }
  }

  lemma {:induction false} CancelTurns(s: State, uid: int, p: int, o: int)
    ensures var (s', ok) := CancelOrder(s, uid, p);
      && (Turns(s.db.orders, s'.db.orders, o, Cancelled) <==> p == o && ok)
      && !Turns(s.db.orders, s'.db.orders, o, Paid)
  {
  }

  lemma {:induction false} OtherOrders(s: State, n: string, op: Op, r: Reply, s': State)
    requires n in s.purse && n in s.db.users && Operate(s, n, op, r, s') && !op.CheckoutOp? && !op.PayOp? && !op.CancelOp?
    ensures s'.db.orders == s.db.orders
  {
    if GoodsOp(op) { GoodsOnly(s, n, op, r, s'); }
  }

  ghost predicate TurnsTold(orders: map<int, OrderRow>, orders': map<int, OrderRow>, o: int, paid: bool, cancelled: bool) {
    (Turns(orders, orders', o, Paid) <==> paid) && (Turns(orders, orders', o, Cancelled) <==> cancelled)
  }

  lemma {:induction false} OrderOpTurns(s: State, n: string, op: Op, r: Reply, s': State, o: int)
    requires Sound(s.db) && n in s.purse && n in s.db.users && Carried(s, n, op, r, s')
    requires op.CheckoutOp? || op.PayOp? || op.CancelOp?
    ensures TurnsTold(s.db.orders, s'.db.orders, o, Pays(By(n, op), r, o), PutsBack(s.db, By(n, op), r, o))
  {
    var uid := s.db.users[n].id;
    match op
    case CheckoutOp(pay, now) => CheckoutTurns(s, uid, pay, now, r.checkout, s', o);
    case PayOp(p) => PayTurns(s, uid, p, o);
    case CancelOp(p) => CancelTurns(s, uid, p, o);
  }

  lemma {:induction false} OperateTurns(s: State, n: string, op: Op, r: Reply, s': State, o: int)
    requires Sound(s.db) && n in s.purse && n in s.db.users && Operate(s, n, op, r, s')
    ensures TurnsTold(s.db.orders, s'.db.orders, o, Pays(By(n, op), r, o), PutsBack(s.db, By(n, op), r, o))
  {
    if op.CheckoutOp? || op.PayOp? || op.CancelOp? {
      OrderOpTurns(s, n, op, r, s', o);
    } else {
      OtherOrders(s, n, op, r, s');
    }
  }

  lemma {:induction false} ExpireTurns(s: State, cutoff: int, r: Reply, s': State, o: int)
    requires BooksFine(s) && r.Counted? && Sweep(s, cutoff, r.count, s')
    ensures TurnsTold(s.db.orders, s'.db.orders, o, Pays(Expire(cutoff), r, o), PutsBack(s.db, Expire(cutoff), r, o))
  {
    SweepTwin(s, cutoff, r.count, s');
  }

  /** An order turns PAID exactly when an answer says so, and CANCELLED exactly when an answer
    says so or the sweep finds it expired; both only from PENDING (or, PAID, at once). */
  lemma {:induction false} StepTurns(s: State, q: Request, r: Reply, s': State, o: int)
    requires BooksFine(s) && Step(s, q, r, s')
    ensures TurnsTold(s.db.orders, s'.db.orders, o, Pays(q, r, o), PutsBack(s.db, q, r, o))
  {
    match q
    case Register(kind, n, secret) =>
    case Reject =>
    case By(n, op) =>
      if n in s.db.users && s.db.users[n].kind == Role(op) {
        OperateTurns(LoadPurses(s, {n}), n, op, r, s', o);
      }
    case Expire(cutoff) => ExpireTurns(s, cutoff, r, s', o);
    case Fill(ids, names) =>
  }

  /** A user's request closes no order but the user's own. */
  lemma {:induction false} CloserOwns(s: State, q: Request, r: Reply, s': State, o: int)
    requires BooksFine(s) && Step(s, q, r, s') && q.By? && (Pays(q, r, o) || PutsBack(s.db, q, r, o))
    ensures q.name in s.db.users && o in s'.db.orders && s'.db.orders[o].userId == s.db.users[q.name].id
    ensures !q.op.CheckoutOp? ==> o in s.db.orders && s.db.orders[o].status == Pending
  {
    var uid := s.db.users[q.name].id;
    if q.op.CheckoutOp? { PlacedOrder(LoadPurses(s, {q.name}), uid, q.op.now); }
  }

  /** A cancellation is accepted exactly from the consumer whose PENDING order it names. */
  lemma {:induction false} CancelsOwn(s: State, n: string, o: int, r: Reply, s': State)
    requires BooksFine(s) && Step(s, By(n, CancelOp(o)), r, s')
    ensures r == Ok <==> (
      && n in s.db.users && s.db.users[n].kind == Consumer
      && o in s.db.orders && s.db.orders[o].status == Pending && s.db.orders[o].userId == s.db.users[n].id)
    ensures r == Ok || (r == Refused && s'.db == s.db && s'.shelf == s.shelf)
  {
    assert LoadPurses(s, {n}).db == s.db && LoadPurses(s, {n}).shelf == s.shelf;
  }

  /** A sweep leaves every order alone that was not created before the cut-off. */
  lemma {:induction false} FreshKept(s: State, cutoff: int, r: Reply, s': State, o: int)
    requires BooksFine(s) && Step(s, Expire(cutoff), r, s') && o in s.db.orders && cutoff <= s.db.orders[o].createdAt
    ensures o in s'.db.orders && s'.db.orders[o] == s.db.orders[o]
  {
    StepOrders(s, Expire(cutoff), r, s');
    StepTurns(s, Expire(cutoff), r, s', o);
    assert OrderKept(s.db.orders[o], s'.db.orders[o]);
  }
}
