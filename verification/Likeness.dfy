/** What the caches happen to hold makes no difference.

  Two states are alike when their tables are equal and every look-up sees the same; they may
  differ in what is cached. Read-only requests lead to a state alike the one before, and a
  writing request has the same answers and effects from either of two states that are alike. */
module Likeness {
  import opened Sums
  import opened Tables
  import opened Shop
  import opened Requests
  import opened Invariants
  import opened Cancelling

  ghost predicate Alike(s: State, t: State) {
    s.db == t.db && SameShelves(s, t, s.db.commodities.Keys) && SameBalances(s, t, s.db.users.Keys)
  }

  ghost predicate SameShelves(s: State, t: State, ids: set<int>)
    requires ids <= s.db.commodities.Keys && ids <= t.db.commodities.Keys
  {
    forall c :: c in ids ==> ShelfOf(s, c) == ShelfOf(t, c)
  }

  ghost predicate SameBalances(s: State, t: State, names: set<string>)
    requires names <= s.db.users.Keys && names <= t.db.users.Keys
  {
    forall n :: n in names ==> BalanceOf(s, n) == BalanceOf(t, n)
  }

  /** Looking things up leads to a state that is alike. */
  lemma {:induction false} LookedAlike(s: State, ids: set<int>, names: set<string>)
    ensures Alike(Looked(s, ids, names), s)
  {
  }

  // ---- Checkout and payment ----

  /** The one who asks is cached, so the look-up by id finds exactly them. */
  ghost predicate Asks(s: State, uid: int, n: string) {
    n in s.purse && n in s.db.users && s.db.users[n].id == uid
  }

  lemma {:induction false} AskerFound(s: State, uid: int, n: string)
    requires Asks(s, uid, n) && UsersSound(s.db.users, s.db.lastUser)
    ensures Found(s, uid, n) && forall m :: Found(s, uid, m) ==> m == n
  {
  }

  lemma {:induction false} CanPayAlike(s: State, t: State, uid: int, n: string, lines: map<int, Line>)
    requires Alike(s, t) && UsersSound(s.db.users, s.db.lastUser) && Asks(s, uid, n) && Asks(t, uid, n)
    ensures CanPay(s, uid, lines) <==> CanPay(t, uid, lines)
  {
  }

  lemma {:induction false} SettlementsAlike(s: State, t: State, uid: int, lines: map<int, Line>, how: Split)
    requires Alike(s, t)
    ensures Settlements(s, uid, lines, how) == Settlements(t, uid, lines, how)
  {
    forall n | n in s.db.users ensures Settled(s, uid, lines, how, n) == Settled(t, uid, lines, how, n) {
      assert BalanceOf(s, n) == BalanceOf(t, n);
    }
  }

  function Written(s: State, balances: map<string, real>): State {
    State(s.db.(users := WriteBalances(s.db.users, balances)), s.shelf, s.purse + balances)
  }

  lemma {:induction false} WrittenAlike(s: State, t: State, balances: map<string, real>)
    requires Alike(s, t)
    ensures Alike(Written(s, balances), Written(t, balances))
  {
  }

  lemma {:induction false} ChargeAlike(s: State, t: State, uid: int, lines: map<int, Line>, how: Split)
    requires Alike(s, t)
    ensures Alike(Charge(s, uid, lines, how), Charge(t, uid, lines, how))
  {
    SettlementsAlike(s, t, uid, lines, how);
    WrittenAlike(s, t, Settlements(s, uid, lines, how));
  }

  lemma {:induction false} PlaceAlike(s: State, t: State, uid: int, now: int)
    requires Alike(s, t)
    ensures Alike(PlaceOrder(s, uid, now), PlaceOrder(t, uid, now))
    ensures WellStocked(s, CartLines(s.db, uid)) <==> WellStocked(t, CartLines(t.db, uid))
  {
  }

  lemma {:induction false} MarkAlike(s: State, t: State, o: int, status: Status)
    requires Alike(s, t)
    ensures Alike(Mark(s, o, status), Mark(t, o, status))
  {
  }

  lemma {:induction false} LoweredAlike(s: State, t: State, lines: map<int, Line>)
    requires Alike(s, t) && lines.Keys <= s.db.commodities.Keys
    ensures Alike(s.(shelf := Lowered(s, lines)), t.(shelf := Lowered(t, lines)))
  {
  }

  /** `checkout` from `t` ends as it did from `s`. */
  lemma {:induction false} CheckoutAlike(s: State, t: State, uid: int, n: string, pay: bool, now: int, r: CheckoutResult, s': State)
    returns (t': State)
    requires Inv(s) && Inv(t) && Alike(s, t) && Asks(s, uid, n) && Asks(t, uid, n) && Checkout(s, uid, pay, now, r, s')
    ensures Checkout(t, uid, pay, now, r, t') && Alike(s', t')
  {
    var lines := CartLines(s.db, uid);
    PlaceAlike(s, t, uid, now);
    match r
    case EmptyCart => t' := t;
    case OutOfStock =>
      var seen: set<int> :| seen <= lines.Keys && s' == LoadShelves(s, seen);
      t' := LoadShelves(t, seen);
      LoadedAlike(s, t, seen);
    case SqlFault =>
      t' := LoadShelves(t, lines.Keys);
      LoadedAlike(s, t, lines.Keys);
    case NoUser => AskerFound(s, uid, n);
    case NoFunds => t' := NoFundsAlike(s, t, uid, n, now, s');
    case Placed(id) => t' := PlacedAlike(s, t, uid, n, pay, now, id, s');
  }

  lemma {:induction false} LoadedAlike(s: State, t: State, ids: set<int>)
    requires Alike(s, t)
    ensures Alike(LoadShelves(s, ids), LoadShelves(t, ids))
  {
  }

  lemma {:induction false} NoFundsAlike(s: State, t: State, uid: int, n: string, now: int, s': State) returns (t': State)
    requires Inv(s) && Inv(t) && Alike(s, t) && Asks(s, uid, n) && Asks(t, uid, n) && Checkout(s, uid, true, now, NoFunds, s')
    ensures Checkout(t, uid, true, now, NoFunds, t') && Alike(s', t')
  {
    var lines := CartLines(s.db, uid);
    PlaceAlike(s, t, uid, now);
    CanPayAlike(s, t, uid, n, lines);
    AskerFound(t, uid, n);
    LoweredAlike(s, t, lines);
    t' := LoadBuyer(t.(shelf := Lowered(t, lines)), uid);
    BuyerAlike(s.(shelf := Lowered(s, lines)), t.(shelf := Lowered(t, lines)), uid);
  }

  lemma {:induction false} BuyerAlike(s: State, t: State, uid: int)
    requires Alike(s, t)
    ensures Alike(LoadBuyer(s, uid), LoadBuyer(t, uid))
  {
  }

  lemma {:induction false} PlacedAlike(s: State, t: State, uid: int, n: string, pay: bool, now: int, id: int, s': State)
    returns (t': State)
    requires Inv(s) && Inv(t) && Alike(s, t) && Asks(s, uid, n) && Asks(t, uid, n) && Checkout(s, uid, pay, now, Placed(id), s')
    ensures Checkout(t, uid, pay, now, Placed(id), t') && Alike(s', t')
  {
    var lines := CartLines(s.db, uid);
    PlaceAlike(s, t, uid, now);
    t' := PlaceOrder(t, uid, now);
    if pay {
      CanPayAlike(s, t, uid, n, lines);
      SettledAlike(PlaceOrder(s, uid, now), t', uid, lines, PerLine, id);
      t' := Mark(Charge(t', uid, lines, PerLine), id, Paid);
    }
  }

  lemma {:induction false} SettledAlike(s: State, t: State, uid: int, lines: map<int, Line>, how: Split, o: int)
    requires Alike(s, t)
    ensures Alike(Mark(Charge(s, uid, lines, how), o, Paid), Mark(Charge(t, uid, lines, how), o, Paid))
  {
    ChargeAlike(s, t, uid, lines, how);
    MarkAlike(Charge(s, uid, lines, how), Charge(t, uid, lines, how), o, Paid);
  }

  lemma {:induction false} PayOrderAlike(s: State, t: State, uid: int, n: string, o: int)
    requires Inv(s) && Inv(t) && Alike(s, t) && Asks(s, uid, n) && Asks(t, uid, n)
    ensures PayOrder(s, uid, o).1 == PayOrder(t, uid, o).1 && Alike(PayOrder(s, uid, o).0, PayOrder(t, uid, o).0)
  {
    AskerFound(s, uid, n);
    AskerFound(t, uid, n);
    if o !in s.db.orders || s.db.orders[o].userId != uid {
    } else if s.db.orders[o].status != Pending {
    } else {
      PayPendingAlike(s, t, uid, n, o, s.db.orders[o].lines);
    }
  }

  lemma {:induction false} PayPendingAlike(s: State, t: State, uid: int, n: string, o: int, lines: map<int, Line>)
    requires Alike(s, t) && UsersSound(s.db.users, s.db.lastUser) && Asks(s, uid, n) && Asks(t, uid, n)
    ensures CanPay(s, uid, lines) <==> CanPay(t, uid, lines)
    ensures Alike(LoadBuyer(s, uid), LoadBuyer(t, uid))
    ensures Alike(Mark(Charge(s, uid, lines, Grouped), o, Paid), Mark(Charge(t, uid, lines, Grouped), o, Paid))
  {
    CanPayAlike(s, t, uid, n, lines);
    BuyerAlike(s, t, uid);
    SettledAlike(s, t, uid, lines, Grouped, o);
  }

  // ---- Cancelling ----

  /** Alike only while the commodities put back are cached on both sides. */
  lemma {:induction false} CancelAlike(s: State, t: State, o: int)
    requires Inv(s) && Inv(t) && Alike(s, t) && o in s.db.orders && s.db.orders[o].status == Pending
    ensures Alike(CancelInternal(s, o), CancelInternal(t, o))
  {
  }

  lemma {:induction false} CancelOrderAlike(s: State, t: State, uid: int, o: int)
    requires Inv(s) && Inv(t) && Alike(s, t)
    ensures CancelOrder(s, uid, o).1 == CancelOrder(t, uid, o).1
    ensures Alike(CancelOrder(s, uid, o).0, CancelOrder(t, uid, o).0)
  {
    if CancelOrder(s, uid, o).1 { CancelAlike(s, t, o); }
  }

  lemma {:induction false} SweptAlike(s: State, t: State, gone: set<int>)
    requires Alike(s, t)
    ensures Alike(Swept(s, gone), Swept(t, gone))
  {
    var s1, t1 := Swept(s, gone), Swept(t, gone);
    forall c | c in s1.db.commodities.Keys ensures ShelfOf(s1, c) == ShelfOf(t1, c) {
      assert ShelfOf(s, c) == ShelfOf(t, c);
    }
    forall n | n in s1.db.users.Keys ensures BalanceOf(s1, n) == BalanceOf(t1, n) {
      assert BalanceOf(s, n) == BalanceOf(t, n);
    }
  }

  lemma {:induction false} SweepAlike(s: State, t: State, cutoff: int, count: int, s': State) returns (t': State)
    requires Inv(s) && Inv(t) && Alike(s, t) && Sweep(s, cutoff, count, s')
    ensures Sweep(t, cutoff, count, t') && Alike(s', t')
  {
    var gone := Expired(s.db, cutoff);
    var ids: seq<int> :| Enumerates(ids, gone) && count == |ids| && s' == CancelAll(s, ids);
    AnyOrderSweeps(s, ids, gone);
    AnyOrderSweeps(t, ids, gone);
    SweptAlike(s, t, gone);
    t' := CancelAll(t, ids);
  }

  // ---- The other operations ----

  lemma {:induction false} RegisterAlike(s: State, t: State, kind: UserKind, n: string, secret: string)
    requires Alike(s, t)
    ensures RegisterUser(s, kind, n, secret).1 == RegisterUser(t, kind, n, secret).1
    ensures Alike(RegisterUser(s, kind, n, secret).0, RegisterUser(t, kind, n, secret).0)
  {
  }

  lemma {:induction false} PasswordAlike(s: State, t: State, n: string, secret: Option<string>)
    requires Alike(s, t) && n in s.db.users
    ensures SetPassword(s, n, secret).1 == SetPassword(t, n, secret).1
    ensures Alike(SetPassword(s, n, secret).0, SetPassword(t, n, secret).0)
  {
    var s', t' := SetPassword(s, n, secret).0, SetPassword(t, n, secret).0;
    forall m | m in s'.db.users.Keys ensures BalanceOf(s', m) == BalanceOf(t', m) { assert BalanceOf(s, m) == BalanceOf(t, m); }
    forall c | c in s'.db.commodities.Keys ensures ShelfOf(s', c) == ShelfOf(t', c) { assert ShelfOf(s, c) == ShelfOf(t, c); }
  }

  lemma {:induction false} RechargeAlike(s: State, t: State, n: string, amount: real)
    requires Alike(s, t) && n in s.purse && n in t.purse && n in s.db.users
    ensures Recharge(s, n, amount).1 == Recharge(t, n, amount).1
    ensures Alike(Recharge(s, n, amount).0, Recharge(t, n, amount).0)
  {
  }

  lemma {:induction false} AddCommodityAlike(s: State, t: State, kind: string, name: string, merchant: string, price: real, stock: int)
    requires Alike(s, t)
    ensures var a, b := AddCommodity(s, kind, name, merchant, price, stock, 1.0), AddCommodity(t, kind, name, merchant, price, stock, 1.0);
      a.1 == b.1 && Alike(a.0, b.0)
  {
  }

  lemma {:induction false} UpdateAlike(s: State, t: State, c: int, change: Change)
    requires Alike(s, t) && c in s.shelf && c in t.shelf && c in s.db.commodities
    ensures Update(s, c, change).1 == Update(t, c, change).1 && Alike(Update(s, c, change).0, Update(t, c, change).0)
  {
  }

  lemma {:induction false} ModifyAlike(s: State, t: State, n: string, name: string, change: Change)
    requires Alike(s, t)
    ensures Modify(s, n, name, change).1 == Modify(t, n, name, change).1
    ensures Alike(Modify(s, n, name, change).0, Modify(t, n, name, change).0)
  {
    if Named(s.db, name).Some? {
      var c := Named(s.db, name).value;
      LoadedAlike(s, t, {c});
      UpdateAlike(LoadShelves(s, {c}), LoadShelves(t, {c}), c, change);
    }
  }

  lemma {:induction false} BatchAlike(s: State, t: State, merchant: string, kind: string, d: real)
    requires Alike(s, t)
    ensures BatchDiscount(s, merchant, kind, d).1 == BatchDiscount(t, merchant, kind, d).1
    ensures Alike(BatchDiscount(s, merchant, kind, d).0, BatchDiscount(t, merchant, kind, d).0)
  {
  }

  lemma {:induction false} SetCartAlike(s: State, t: State, uid: int, cart: map<int, int>)
    requires Alike(s, t)
    ensures Alike(SetCart(s, uid, cart), SetCart(t, uid, cart))
  {
  }

  lemma {:induction false} CartAlike(s: State, t: State, uid: int, name: string, q: int)
    requires Alike(s, t)
    ensures AddToCart(s, uid, name, q).1 == AddToCart(t, uid, name, q).1
    ensures Alike(AddToCart(s, uid, name, q).0, AddToCart(t, uid, name, q).0)
    ensures Alike(RemoveFromCart(s, uid, name).0, RemoveFromCart(t, uid, name).0)
    ensures UpdateCartQuantity(s, uid, name, q).1 == UpdateCartQuantity(t, uid, name, q).1
    ensures Alike(UpdateCartQuantity(s, uid, name, q).0, UpdateCartQuantity(t, uid, name, q).0)
  {
    if Named(s.db, name).Some? {
      var c, cart := Named(s.db, name).value, CartOf(s.db, uid);
      assert ShelfOf(s, c) == ShelfOf(t, c);
      LoadedAlike(s, t, {c});
      var s1, t1 := LoadShelves(s, {c}), LoadShelves(t, {c});
      SetCartAlike(s1, t1, uid, cart[c := (if c in cart then cart[c] else 0) + q]);
      SetCartAlike(s1, t1, uid, cart - {c});
      SetCartAlike(s1, t1, uid, cart[c := q]);
    }
  }

  // ---- One request ----

  lemma {:induction false} MerchantAlike(s: State, t: State, n: string, op: Op, r: Reply, s': State) returns (t': State)
    requires Alike(s, t) && n in s.purse && n in t.purse && n in s.db.users && Carried(s, n, op, r, s')
    requires op.RechargeOp? || op.PasswordOp? || op.AddCommodityOp? || op.ModifyOp? || op.BatchDiscountOp?
    ensures Carried(t, n, op, r, t') && Alike(s', t')
  {
    match op
    case RechargeOp(_, amount) => RechargeAlike(s, t, n, amount); t' := Recharge(t, n, amount).0;
    case PasswordOp(_, secret) => PasswordAlike(s, t, n, secret); t' := SetPassword(t, n, secret).0;
    case AddCommodityOp(kind, name, price, stock) =>
      AddCommodityAlike(s, t, kind, name, n, price, stock);
      t' := AddCommodity(t, kind, name, n, price, stock, 1.0).0;
    case ModifyOp(name, change) => ModifyAlike(s, t, n, name, change); t' := Modify(t, n, name, change).0;
    case BatchDiscountOp(kind, d) => BatchAlike(s, t, n, kind, d); t' := BatchDiscount(t, n, kind, d).0;
  }

  lemma {:induction false} CartOpAlike(s: State, t: State, n: string, op: Op, r: Reply, s': State) returns (t': State)
    requires Alike(s, t) && n in s.purse && n in t.purse && n in s.db.users
    requires (op.AddItemOp? || op.RemoveItemOp? || op.SetQuantityOp?) && Carried(s, n, op, r, s')
    ensures Carried(t, n, op, r, t') && Alike(s', t')
  {
    var uid := s.db.users[n].id;
    match op
    case AddItemOp(name, q) => CartAlike(s, t, uid, name, q); t' := AddToCart(t, uid, name, q).0;
    case RemoveItemOp(name) => CartAlike(s, t, uid, name, 0); t' := RemoveFromCart(t, uid, name).0;
    case SetQuantityOp(name, q) => CartAlike(s, t, uid, name, q); t' := UpdateCartQuantity(t, uid, name, q).0;
  }

  lemma {:induction false} NamedAlike(s: State, t: State, name: string)
    requires Alike(s, t)
    ensures Alike(LoadNamed(s, name), LoadNamed(t, name))
  {
    if Named(s.db, name).Some? { LoadedAlike(s, t, {Named(s.db, name).value}); }
  }

  /** An SQL failure can strike the one exactly when it can strike the other. */
  lemma {:induction false} ReachAlike(s: State, t: State, n: string, op: Op)
    requires Alike(s, t) && n in s.db.users
    ensures ReachesStatement(s, n, op) <==> ReachesStatement(t, n, op)
  {
    var uid := s.db.users[n].id;
    match op
    case ModifyOp(name, change) => ModifyAlike(s, t, n, name, change);
    case AddItemOp(name, q) => CartAlike(s, t, uid, name, q);
    case SetQuantityOp(name, q) => CartAlike(s, t, uid, name, q);
    case _ =>
  }

  lemma {:induction false} FaultAlike(s: State, t: State, op: Op)
    requires Alike(s, t)
    ensures Alike(AfterFault(s, op), AfterFault(t, op))
  {
    match op
    case ModifyOp(name, _) => NamedAlike(s, t, name);
    case AddItemOp(name, _) => NamedAlike(s, t, name);
    case RemoveItemOp(name) => NamedAlike(s, t, name);
    case SetQuantityOp(name, _) => NamedAlike(s, t, name);
    case _ =>
  }

  lemma {:induction false} CarriedAlike(s: State, t: State, n: string, op: Op, r: Reply, s': State) returns (t': State)
    requires Inv(s) && Inv(t) && Alike(s, t) && n in s.purse && n in t.purse && n in s.db.users
    requires Carried(s, n, op, r, s')
    ensures Carried(t, n, op, r, t') && Alike(s', t')
  {
    var uid := s.db.users[n].id;
    match op
    case CheckoutOp(pay, now) => t' := CheckoutAlike(s, t, uid, n, pay, now, r.checkout, s');
    case PayOp(o) => PayOrderAlike(s, t, uid, n, o); t' := PayOrder(t, uid, o).0;
    case CancelOp(o) => CancelOrderAlike(s, t, uid, o); t' := CancelOrder(t, uid, o).0;
    case _ =>
      if op.AddItemOp? || op.RemoveItemOp? || op.SetQuantityOp? { t' := CartOpAlike(s, t, n, op, r, s'); }
      else { t' := MerchantAlike(s, t, n, op, r, s'); }
  }

  lemma {:induction false} OperateAlike(s: State, t: State, n: string, op: Op, r: Reply, s': State) returns (t': State)
    requires Inv(s) && Inv(t) && Alike(s, t) && n in s.purse && n in t.purse && n in s.db.users
    requires Operate(s, n, op, r, s')
    ensures Operate(t, n, op, r, t') && Alike(s', t')
  {
    if Carried(s, n, op, r, s') {
      t' := CarriedAlike(s, t, n, op, r, s');
    } else {
      ReachAlike(s, t, n, op);
      FaultAlike(s, t, op);
      t' := AfterFault(t, op);
    }
  }

  lemma {:induction false} PursesAlike(s: State, t: State, names: set<string>)
    requires Alike(s, t)
    ensures Alike(LoadPurses(s, names), LoadPurses(t, names))
  {
  }

  /** The same request from a state that is alike may answer the same and end in a state that
    is alike again: nothing depends on what happened to be cached. */
  lemma {:induction false} StepAlike(s: State, t: State, q: Request, r: Reply, s': State) returns (t': State)
    requires Inv(s) && Inv(t) && Alike(s, t) && Step(s, q, r, s')
    ensures Step(t, q, r, t') && Alike(s', t')
  {
    match q
    case Register(kind, n, secret) =>
      RegisterAlike(s, t, kind, n, secret);
      t' := if n !in s.db.users && r == Refused then t else RegisterUser(t, kind, n, secret).0;
    case Reject => t' := t;
    case By(n, op) =>
      var s1, t1 := LoadPurses(s, {n}), LoadPurses(t, {n});
      PursesAlike(s, t, {n});
      LoadPursesInv(s, {n});
      LoadPursesInv(t, {n});
      if n !in s.db.users || s.db.users[n].kind != Role(op) { t' := t1; }
      else { t' := OperateAlike(s1, t1, n, op, r, s'); }
    case Expire(cutoff) => t' := SweepAlike(s, t, cutoff, r.count, s');
    case Fill(ids, names) =>
      t' := Looked(t, ids, names);
      PursesAlike(s, t, names);
      LoadedAlike(LoadPurses(s, names), LoadPurses(t, names), ids);
  }
}
