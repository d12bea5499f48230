/** The request handlers (src/Server.cpp): each is proved to take the step `Requests` gives it. */
module Handlers {
  import opened Sums
  import opened Tables
  import opened Shop
  import opened Requests
  import opened Sqlite
  import opened Accounts
  import opened Catalog
  import opened OrderDesk
  import opened Routing
  import Codes
  import Effects
  import Invariants

  lemma {:induction false} AddedIs(s: State, kind: string, name: string, merchant: string, price: real, stock: int,
                                   ok: bool, t: Database, shelf: map<int, Shelf>, fault: bool)
    requires Sound(s.db) && s.shelf.Keys <= s.db.commodities.Keys
    requires if ok then KnownKind(kind) && Named(s.db, name).None? else !KnownKind(kind) || Named(s.db, name).Some? || fault
    requires var id, row := s.db.lastCommodity + 1, CommodityRow(name, kind, merchant, price, 1.0, stock);
      if ok then t == s.db.(commodities := s.db.commodities[id := row], lastCommodity := id) && shelf == WithShelves(s.shelf, t.commodities, {id})
      else t == s.db && shelf == s.shelf
    ensures DoneOrFailed(State(t, shelf, s.purse), ok, AddCommodity(s, kind, name, merchant, price, stock, 1.0), s, fault)
  {
    assert s.db.lastCommodity + 1 !in s.shelf.Keys;
    if ok { assert shelf == s.shelf[s.db.lastCommodity + 1 := FromRow(CommodityRow(name, kind, merchant, price, 1.0, stock))]; }
  }

  lemma {:induction false} RechargedIs(s: State, n: string, amount: real, ok: bool, t: Database, purse: map<string, real>, balance: real)
    requires n in s.purse && n in s.db.users && (ok <==> amount > 0.0)
    requires balance == s.purse[n] + Pos(amount) && purse == s.purse[n := balance]
    requires t == if ok then s.db.(users := s.db.users[n := s.db.users[n].(balance := balance)]) else s.db
    ensures (State(t, s.shelf, purse), ok) == Recharge(s, n, amount)
  {
    assert s.purse[n := s.purse[n]] == s.purse;
  }

  lemma {:induction false} EnrolledIs(s: State, w: Wire, now: int, ok: bool, t: Database, purse: map<string, real>, fault: bool)
    requires w.action == "register"
    requires if ok then UserManager.Admits(w.kind, w.password) && w.username !in s.db.users
      else !UserManager.Admits(w.kind, w.password) || w.username in s.db.users || fault
    requires purse == if ok then s.purse[w.username := 0.0] else s.purse
    requires t == if !ok then s.db else UserManager.Enrolled(s.db, UserManager.KindOf(w.kind).value, w.username, w.secret)
    ensures Answers(s, Route(w, now, {}), Said(ok), State(t, s.shelf, purse), fault)
  {
  }

  lemma {:induction false} SecretIs(s: State, n: string, password: string, secret: string, ok: bool, t: Database)
    requires n in s.db.users && (ok <==> PasswordFits(password))
    requires t == if ok then s.db.(users := s.db.users[n := s.db.users[n].(password := secret)]) else s.db
    ensures (State(t, s.shelf, s.purse), ok) == SetPassword(s, n, if PasswordFits(password) then Some(secret) else None)
  {
  }

  /** Updates do not look at the purse. */
  lemma {:induction false} UpdateLifts(s: State, c: int, change: Change, t: Database, shelf: map<int, Shelf>, ok: bool, fault: bool)
    requires c in s.shelf && c in s.db.commodities
    requires var s0 := State(s.db, s.shelf, map[]); DoneOrFailed(State(t, shelf, map[]), ok, Update(s0, c, change), s0, fault)
    ensures DoneOrFailed(State(t, shelf, s.purse), ok, Update(s, c, change), s, fault)
  {
  }

  lemma {:induction false} BatchLifts(s: State, merchant: string, kind: string, d: real, t: Database, shelf: map<int, Shelf>,
                                      count: int, fault: bool)
    requires var s0 := State(s.db, s.shelf, map[]);
      || (State(t, shelf, map[]), count) == BatchDiscount(s0, merchant, kind, d)
      || (fault && Acceptable(Discount(d)) && count == -1 && t == s.db && shelf == s.shelf)
    ensures (State(t, shelf, s.purse), count) == BatchDiscount(s, merchant, kind, d)
      || (fault && Acceptable(Discount(d)) && count == -1 && State(t, shelf, s.purse) == s)
  {
  }

  function Said(ok: bool): Reply { if ok then Ok else Refused }

  /** The operations that end in one statement whose result is looked at. */
  predicate EndsInStatement(op: Op) {
    op.AddCommodityOp? || op.ModifyOp? || op.AddItemOp? || op.RemoveItemOp? || op.SetQuantityOp?
  }

  ghost function Doing(s: State, n: string, op: Op): (State, bool)
    requires n in s.db.users && EndsInStatement(op)
  {
    var uid := s.db.users[n].id;
    match op
    case AddCommodityOp(kind, name, price, stock) => AddCommodity(s, kind, name, n, price, stock, 1.0)
    case ModifyOp(name, change) => Requests.Modify(s, n, name, change)
    case AddItemOp(name, q) => AddToCart(s, uid, name, q)
    case RemoveItemOp(name) => RemoveFromCart(s, uid, name)
    case SetQuantityOp(name, q) => UpdateCartQuantity(s, uid, name, q)
  }

  lemma {:induction false} Outcome(s: State, n: string, op: Op, ok: bool, s': State, fault: bool)
    requires n in s.purse && n in s.db.users && EndsInStatement(op)
    requires DoneOrFailed(s', ok, Doing(s, n, op), AfterFault(s, op), fault)
    ensures Operates(s, n, op, Said(ok), s', fault)
  {
    match op
    case AddCommodityOp(_, _, _, _) =>
    case ModifyOp(_, _) =>
    case AddItemOp(_, _) =>
    case RemoveItemOp(_) =>
    case SetQuantityOp(_, _) =>
  }

  /** A known user of the right type is served. */
  lemma {:induction false} Admitted(s: State, n: string, op: Op, r: Reply, s': State, fault: bool)
    requires n in s.db.users && s.db.users[n].kind == Role(op) && Operates(LoadPurses(s, {n}), n, op, r, s', fault)
    ensures AnswersUser(s, n, op, r, s', fault)
  {
  }

  lemma {:induction false} PaidOrNot(s: State, n: string, o: int, payment: PayResult, s': State)
    requires n in s.purse && n in s.db.users && (s', payment) == PayOrder(s, s.db.users[n].id, o)
    ensures Operates(s, n, PayOp(o), Payment(payment), s', false)
  {
    assert PayOrder(s, s.db.users[n].id, o) == (s', payment);
    assert Carried(s, n, PayOp(o), Payment(payment), s');
  }

  lemma {:induction false} CancelledOrNot(s: State, n: string, o: int, ok: bool, s': State)
    requires n in s.purse && n in s.db.users && (s', ok) == CancelOrder(s, s.db.users[n].id, o)
    ensures Operates(s, n, CancelOp(o), Said(ok), s', false)
  {
  }

  lemma {:induction false} BatchOrNot(s: State, n: string, kind: string, d: real, count: int, s': State, fault: bool)
    requires n in s.purse && n in s.db.users
    requires (s', count) == BatchDiscount(s, n, kind, d) || (fault && Acceptable(Discount(d)) && count == -1 && s' == s)
    ensures Operates(s, n, BatchDiscountOp(kind, d), if count > 0 then Counted(count) else Refused, s', fault)
  {
  }

  lemma {:induction false} RoutedPassword(w: Wire, now: int)
    ensures var q := Route(w, now, {}); q.By? && q.op.PasswordOp? ==> q.op.secret == Encrypted(w)
  {
  }

  lemma {:induction false} FillNobody(s: State)
    ensures LoadPurses(s, {}) == s && LoadShelves(s, {}) == s
  {
  }

  /** `getTotalAmount` of every order in the list. */
  method TotalsOf(orders: seq<Order>, ghost t: Database, ghost ids: seq<seq<int>>) returns (totals: seq<real>)
    requires |ids| == |orders| && forall k :: 0 <= k < |orders| ==> Reports(t, orders[k], orders[k].id, ids[k])
    ensures |totals| == |orders|
    ensures forall k :: 0 <= k < |orders| ==> orders[k].id in t.orders && totals[k] == Total(t.orders[orders[k].id].lines)
  {
    totals := [];
    for k := 0 to |orders|
      invariant |totals| == k
      invariant forall j :: 0 <= j < k ==> orders[j].id in t.orders && totals[j] == Total(t.orders[orders[j].id].lines)
    {
      assert Reports(t, orders[k], orders[k].id, ids[k]);
      var total := TotalOf(orders[k].items, t.commodities, t.orders[orders[k].id].lines, ids[k]);
      totals := totals + [total];
    }
  }

  class Server {
    const om: OrderManager
    const db: Connection
    const um: UserManager
    const cm: CommodityManager

    constructor (tables: Database)
      requires Sound(tables)
      ensures Valid() && fresh(om) && fresh(db) && fresh(um) && fresh(cm)
      ensures Abs() == State(tables, map[], map[])
    {
      var conn := new Connection(tables);
      var users := new UserManager(conn);
      var goods := new CommodityManager(conn);
      var desk := new OrderManager(conn, users, goods);
      db, um, cm, om := conn, users, goods, desk;
    }

    ghost predicate Valid()
      reads db, um, cm
    {
      om.db == db && om.um == um && om.cm == cm && um.db == db && cm.db == db && om.Valid()
    }

    ghost function Abs(): State
      reads db, um, um.userMap.Values, cm, cm.idMap.Values
    {
      State(db.t, cm.Shelves(), um.Purse())
    }

    /** Every cached object is still cached where it was: pointers handed out stay good. */
    twostate predicate Kept()
      reads um, cm
    {
      && UserManager.Keeps(old(um.userMap), um.userMap)
      && CommodityManager.Keeps(old(cm.idMap), cm.idMap) && CommodityManager.Keeps(old(cm.nameMap), cm.nameMap)
    }

    method FindUser(n: string) returns (u: User?)
      requires Valid()
      modifies um
      ensures Valid() && um.Grows()
      ensures Abs() == LoadPurses(old(Abs()), {n})
      ensures u == null <==> n !in db.t.users
      ensures u != null ==> Signed(u, n) && n in um.Purse() && UserManager.Stands(u, n, db.t.users)
    {
      u := um.GetUserByUsername(n);
    }

    /** `u` is the cached object of user `n`. */
    ghost predicate Signed(u: User, n: string)
      reads um, db
    {
      u.username == n && n in um.userMap && um.userMap[n] == u && n in db.t.users
    }

    /** The check at the head of each handler: a known user of the right type. */
    method FindRole(n: string, kind: UserKind) returns (u: User?)
      requires Valid()
      modifies um
      ensures Valid() && um.Grows()
      ensures Abs() == LoadPurses(old(Abs()), {n})
      ensures u == null <==> n !in db.t.users || db.t.users[n].kind != kind
      ensures u != null ==> Signed(u, n) && n in um.Purse() && db.t.users[n].id == u.id
    {
      u := FindUser(n);
      if u != null && u.kind != kind { u := null; }
    }

    // ---- Balances and goods ----

    method AddTo(u: User, ghost n: string, amount: real) returns (ok: bool)
      requires Valid() && Signed(u, n)
      modifies u
      ensures Valid() && (ok <==> amount > 0.0) && n in old(um.Purse())
      ensures u.balance == old(um.Purse())[n] + Pos(amount)
      ensures um.Purse() == old(um.Purse())[n := u.balance] && cm.Shelves() == old(cm.Shelves())
    {
      assert um.Purse()[n] == u.balance;
      ok := u.AddBalance(amount);
      um.OnePurseChanged(u);
    }

    method Store(u: User, ghost n: string)
      requires Valid() && Signed(u, n)
      modifies db`t
      ensures Valid() && um.Purse() == old(um.Purse()) && cm.Shelves() == old(cm.Shelves())
      ensures db.t == old(db.t).(users := old(db.t).users[n := old(db.t).users[n].(balance := u.balance)])
    {
      um.UpdateBalance(u);
    }

    method Recharge(u: User, ghost n: string, amount: real) returns (ok: bool)
      requires Valid() && Signed(u, n)
      modifies u, db`t
      ensures Valid() && n in old(um.Purse())
      ensures (Abs(), ok) == Shop.Recharge(old(Abs()), n, amount)
    {
      ghost var s := Abs();
      ok := AddTo(u, n, amount);
      if ok { Store(u, n); }
      RechargedIs(s, n, amount, ok, db.t, um.Purse(), u.balance);
    }

    /** `setPassword` on the cached object. */
    method KeepSecret(u: User, ghost n: string, password: string, secret: string) returns (ok: bool)
      requires Valid() && Signed(u, n)
      modifies u
      ensures Valid() && (ok <==> PasswordFits(password)) && (ok ==> u.password == secret)
      ensures um.Purse() == old(um.Purse()) && cm.Shelves() == old(cm.Shelves())
    {
      assert um.Purse()[n] == u.balance;
      ok := u.SetPassword(password, secret);
      um.OnePurseChanged(u);
      assert um.Purse() == old(um.Purse());
    }

    method StoreSecret(u: User, ghost n: string)
      requires Valid() && Signed(u, n)
      modifies db`t
      ensures Valid() && um.Purse() == old(um.Purse()) && cm.Shelves() == old(cm.Shelves())
      ensures db.t == old(db.t).(users := old(db.t).users[n := old(db.t).users[n].(password := u.password)])
    {
      um.UpdatePassword(u);
    }

    method HandlePasswordChange(u: User, ghost n: string, password: string, secret: string) returns (ok: bool)
      requires Valid() && Signed(u, n)
      modifies u, db`t
      ensures Valid()
      ensures (Abs(), ok) == SetPassword(old(Abs()), n, if PasswordFits(password) then Some(secret) else None)
    {
      ghost var s := Abs();
      ok := KeepSecret(u, n, password, secret);
      if ok { StoreSecret(u, n); }
      SecretIs(s, n, password, secret, ok, db.t);
    }

    method Offer(kind: string, name: string, merchant: string, price: real, stock: int) returns (ok: bool)
      requires Valid()
      modifies cm, db`t, db`faults
      ensures Valid() && cm.Grows() && um.Purse() == old(um.Purse()) && old(db.faults) <= db.faults
      ensures if ok then KnownKind(kind) && Named(old(db.t), name).None?
        else !KnownKind(kind) || Named(old(db.t), name).Some? || old(db.faults) < db.faults
      ensures ok ==> var id, row := old(db.t).lastCommodity + 1, CommodityRow(name, kind, merchant, price, 1.0, stock);
        && db.t == old(db.t).(commodities := old(db.t).commodities[id := row], lastCommodity := id)
        && cm.Shelves() == WithShelves(old(cm.Shelves()), db.t.commodities, {id})
      ensures !ok ==> db.t == old(db.t) && cm.Shelves() == old(cm.Shelves())
    {
      ok := cm.AddCommodity(kind, name, merchant, price, stock, 1.0);
    }

    method AddCommodity(kind: string, name: string, merchant: string, price: real, stock: int) returns (ok: bool)
      requires Valid()
      modifies cm, db`t, db`faults
      ensures Valid() && cm.Grows() && old(db.faults) <= db.faults
      ensures DoneOrFailed(Abs(), ok, Shop.AddCommodity(old(Abs()), kind, name, merchant, price, stock, 1.0), old(Abs()),
        old(db.faults) < db.faults)
    {
      ghost var s := Abs();
      cm.ShelvesKnown();
      ok := Offer(kind, name, merchant, price, stock);
      AddedIs(s, kind, name, merchant, price, stock, ok, db.t, cm.Shelves(), old(db.faults) < db.faults);
    }

    method Apply(c: Commodity, change: Change) returns (ok: bool)
      requires Valid() && cm.Cached(c)
      modifies db`t, db`faults, c
      ensures Valid() && c.id in old(cm.Shelves()) && c.id in old(db.t).commodities && old(db.faults) <= db.faults
      ensures DoneOrFailed(Abs(), ok, Update(old(Abs()), c.id, change), old(Abs()), old(db.faults) < db.faults)
    {
      ghost var s := Abs();
      ok := cm.Apply(c, change);
      UpdateLifts(s, c.id, change, db.t, cm.Shelves(), ok, old(db.faults) < db.faults);
    }

    method Modify(merchant: string, name: string, change: Change) returns (ok: bool)
      requires Valid()
      modifies db`t, db`faults, cm, cm.idMap.Values
      ensures Valid() && cm.Grows() && old(db.faults) <= db.faults
      ensures DoneOrFailed(Abs(), ok, Requests.Modify(old(Abs()), merchant, name, change), LoadNamed(old(Abs()), name),
        old(db.faults) < db.faults)
    {
      var c := om.FetchNamed(name);
      if c == null || c.merchant != merchant { return false; }
      ok := Apply(c, change);
    }

    method BatchUpdate(merchant: string, kind: string, d: real) returns (count: int)
      requires Valid()
      modifies db`t, db`faults, cm.idMap.Values
      ensures Valid() && um.Purse() == old(um.Purse()) && old(db.faults) <= db.faults
      ensures var s := State(old(db.t), old(cm.Shelves()), map[]);
        || (State(db.t, cm.Shelves(), map[]), count) == BatchDiscount(s, merchant, kind, d)
        || (old(db.faults) < db.faults && Acceptable(Discount(d)) && count == -1 && db.t == s.db && cm.Shelves() == s.shelf)
    {
      count := cm.BatchUpdateDiscount(merchant, kind, d);
    }

    method BatchModify(merchant: string, kind: string, d: real) returns (count: int)
      requires Valid()
      modifies db`t, db`faults, cm.idMap.Values
      ensures Valid() && old(db.faults) <= db.faults
      ensures (Abs(), count) == BatchDiscount(old(Abs()), merchant, kind, d)
        || (old(db.faults) < db.faults && Acceptable(Discount(d)) && count == -1 && Abs() == old(Abs()))
    {
      ghost var s := Abs();
      count := BatchUpdate(merchant, kind, d);
      BatchLifts(s, merchant, kind, d, db.t, cm.Shelves(), count, old(db.faults) < db.faults);
    }

    // ---- The handlers ----

    ghost predicate AsPassword(op: Op, password: string, secret: string) {
      op.PasswordOp? ==> op.secret == if PasswordFits(password) then Some(secret) else None
    }

    /** `handleBalanceOperation` and `handlePasswordChange`, for merchants and consumers alike. */
    method AccountSwitch(u: User, ghost n: string, op: Op, password: string, secret: string) returns (r: Reply)
      requires Valid() && Signed(u, n) && n in um.Purse()
      requires (op.RechargeOp? || op.PasswordOp?) && AsPassword(op, password, secret)
      modifies u, db`t
      ensures Valid()
      ensures Operates(old(Abs()), n, op, r, Abs(), false)
    {
      var ok;
      if op.RechargeOp? { ok := Recharge(u, n, op.amount); } else { ok := HandlePasswordChange(u, n, password, secret); }
      r := Said(ok);
    }

    method GoodsEdit(n: string, op: Op) returns (ok: bool)
      requires Valid() && n in db.t.users && (op.AddCommodityOp? || op.ModifyOp?)
      modifies db`t, db`faults, cm, cm.idMap.Values
      ensures Kept()
      ensures Valid() && old(db.faults) <= db.faults
      ensures DoneOrFailed(Abs(), ok, Doing(old(Abs()), n, op), AfterFault(old(Abs()), op), old(db.faults) < db.faults)
    {
      match op {
        case AddCommodityOp(kind, name, price, stock) => ok := AddCommodity(kind, name, n, price, stock);
        case ModifyOp(name, change) => ok := Modify(n, name, change);
      }
    }

    method GoodsSwitch(n: string, op: Op) returns (r: Reply)
      requires Valid() && n in um.Purse() && n in db.t.users
      requires op.AddCommodityOp? || op.ModifyOp? || op.BatchDiscountOp?
      modifies db`t, db`faults, cm, cm.idMap.Values
      ensures Kept()
      ensures Valid() && old(db.faults) <= db.faults
      ensures Operates(old(Abs()), n, op, r, Abs(), old(db.faults) < db.faults)
    {
      if op.BatchDiscountOp? {
        var count := BatchModify(n, op.kind, op.discount);
        r := if count > 0 then Counted(count) else Refused;
        BatchOrNot(old(Abs()), n, op.kind, op.discount, count, Abs(), old(db.faults) < db.faults);
      } else {
        var ok := GoodsEdit(n, op);
        r := Said(ok);
        Outcome(old(Abs()), n, op, ok, Abs(), old(db.faults) < db.faults);
      }
    }

    method HandleMerchantOperation(n: string, op: Op, password: string, secret: string) returns (r: Reply)
      requires Valid() && Role(op) == Merchant && AsPassword(op, password, secret)
      modifies um, um.userMap.Values, db`t, db`faults, cm, cm.idMap.Values
      ensures Kept()
      ensures Valid() && old(db.faults) <= db.faults
      ensures AnswersUser(old(Abs()), n, op, r, Abs(), old(db.faults) < db.faults)
    {
      var u := FindRole(n, Merchant);
      if u == null { return Refused; }
      if op.RechargeOp? || op.PasswordOp? {
        r := AccountSwitch(u, n, op, password, secret);
      } else {
        r := GoodsSwitch(n, op);
      }
    }

    method HandleConsumerOperation(n: string, op: Op, password: string, secret: string) returns (r: Reply)
      requires Valid() && (op.RechargeOp? || op.PasswordOp?) && op.role == Consumer && AsPassword(op, password, secret)
      modifies um, um.userMap.Values, db`t
      ensures Kept()
      ensures Valid()
      ensures AnswersUser(old(Abs()), n, op, r, Abs(), false)
    {
      r := Refused;
      var u := FindRole(n, Consumer);
      if u != null { r := AccountSwitch(u, n, op, password, secret); }
    }

    method CartEdit(uid: int, ghost n: string, op: Op) returns (ok: bool)
      requires Valid() && n in db.t.users && db.t.users[n].id == uid
      requires op.AddItemOp? || op.RemoveItemOp? || op.SetQuantityOp?
      modifies db`t, db`faults, cm
      ensures Kept()
      ensures Valid() && old(db.faults) <= db.faults
      ensures DoneOrFailed(Abs(), ok, Doing(old(Abs()), n, op), AfterFault(old(Abs()), op), old(db.faults) < db.faults)
    {
      match op {
        case AddItemOp(name, q) => ok := om.AddToCart(uid, name, q);
        case RemoveItemOp(name) => ok := om.RemoveFromCart(uid, name);
        case SetQuantityOp(name, q) => ok := om.UpdateCartQuantity(uid, name, q);
      }
    }

    method CartSwitch(uid: int, ghost n: string, op: Op) returns (r: Reply)
      requires Valid() && n in um.Purse() && n in db.t.users && db.t.users[n].id == uid
      requires op.AddItemOp? || op.RemoveItemOp? || op.SetQuantityOp? || op.CheckoutOp?
      modifies db, um, um.userMap.Values, cm, cm.idMap.Values
      ensures Kept()
      ensures Valid() && old(db.faults) <= db.faults
      ensures Operates(old(Abs()), n, op, r, Abs(), old(db.faults) < db.faults)
    {
      if op.CheckoutOp? {
        var outcome := om.Checkout(uid, op.pay, op.now);
        r := Ordered(outcome);
      } else {
        var ok := CartEdit(uid, n, op);
        r := Said(ok);
        Outcome(old(Abs()), n, op, ok, Abs(), old(db.faults) < db.faults);
      }
    }

    method HandleCartOperation(n: string, op: Op) returns (r: Reply)
      requires Valid() && (op.AddItemOp? || op.RemoveItemOp? || op.SetQuantityOp? || op.CheckoutOp?)
      modifies db, um, um.userMap.Values, cm, cm.idMap.Values
      ensures Kept()
      ensures Valid() && old(db.faults) <= db.faults
      ensures AnswersUser(old(Abs()), n, op, r, Abs(), old(db.faults) < db.faults)
    {
      r := Refused;
      var u := FindRole(n, Consumer);
      if u != null {
        ghost var known := um.userMap;
        r := CartSwitch(u.id, n, op);
        UserManager.KeepsOn(old(um.userMap), known, um.userMap);
        Admitted(old(Abs()), n, op, r, Abs(), old(db.faults) < db.faults);
      }
    }

    method OrderSwitch(uid: int, ghost n: string, op: Op) returns (r: Reply)
      requires Valid() && n in um.Purse() && n in db.t.users && db.t.users[n].id == uid
      requires op.PayOp? || op.CancelOp?
      modifies db`t, db`saved, db`open, um, um.userMap.Values, cm, cm.idMap.Values
      ensures Kept()
      ensures Valid()
      ensures Operates(old(Abs()), n, op, r, Abs(), false)
    {
      if op.PayOp? {
        var payment := om.PayOrder(uid, op.order);
        r := Payment(payment);
        PaidOrNot(old(Abs()), n, op.order, payment, Abs());
      } else {
        var ok := om.CancelOrder(uid, op.order);
        r := Said(ok);
        CancelledOrNot(old(Abs()), n, op.order, ok, Abs());
      }
    }

    method HandleOrderOperation(n: string, op: Op) returns (r: Reply)
      requires Valid() && (op.PayOp? || op.CancelOp?)
      modifies db`t, db`saved, db`open, um, um.userMap.Values, cm, cm.idMap.Values
      ensures Kept()
      ensures Valid()
      ensures AnswersUser(old(Abs()), n, op, r, Abs(), false)
    {
      r := Refused;
      var u := FindRole(n, Consumer);
      if u != null {
        ghost var known := um.userMap;
        r := OrderSwitch(u.id, n, op);
        UserManager.KeepsOn(old(um.userMap), known, um.userMap);
        Admitted(old(Abs()), n, op, r, Abs(), false);
      }
    }

    method Enrol(w: Wire) returns (ok: bool)
      requires Valid()
      modifies um, db`t, db`faults
      ensures Kept()
      ensures Valid() && cm.Shelves() == old(cm.Shelves()) && old(db.faults) <= db.faults
      ensures if ok then UserManager.Admits(w.kind, w.password) && w.username !in old(db.t).users
        else !UserManager.Admits(w.kind, w.password) || w.username in old(db.t).users || old(db.faults) < db.faults
      ensures um.Purse() == if ok then old(um.Purse())[w.username := 0.0] else old(um.Purse())
      ensures db.t == if !ok then old(db.t)
        else UserManager.Enrolled(old(db.t), UserManager.KindOf(w.kind).value, w.username, w.secret)
    {
      ok := um.RegisterUser(w.kind, w.username, w.password, w.secret);
    }

    /** Every refusal answers the same: a type that is not known, a password of the wrong length,
      a taken name, a failed INSERT. */
    method HandleRegister(w: Wire, ghost now: int) returns (r: Reply)
      requires Valid() && w.action == "register"
      modifies um, db`t, db`faults
      ensures Kept()
      ensures Valid() && old(db.faults) <= db.faults
      ensures Answers(old(Abs()), Route(w, now, {}), r, Abs(), old(db.faults) < db.faults)
    {
      ghost var s := Abs();
      var ok := Enrol(w);
      r := Said(ok);
      EnrolledIs(s, w, now, ok, db.t, um.Purse(), old(db.faults) < db.faults);
    }

    /** One round of `expiryCheckLoop`: orders unpaid for 30 minutes are cancelled, and no other. */
    method CheckExpiry(now: int) returns (r: Reply)
      requires Valid()
      modifies db`t, db`saved, db`open, cm, cm.idMap.Values
      ensures Kept()
      ensures Valid()
      ensures Step(old(Abs()), Expire(now - 1800), r, Abs())
      ensures Invariants.BooksFine(old(Abs())) ==> r.Counted? && Effects.Expires(old(db.t), now - 1800, r.count, db.t)
    {
      ghost var s := Abs();
      var count := om.CancelExpiredOrders(now, 30);
      r := Counted(count);
      if Invariants.BooksFine(s) { Effects.ExpireEffect(s, now - 1800, count, Abs()); }
    }

    // ---- Read-only requests ----

    method HandleLogin(n: string) returns (u: User?)
      requires Valid()
      modifies um
      ensures Kept()
      ensures Valid()
      ensures Abs() == Looked(old(Abs()), {}, {n})
    {
      u := FindUser(n);
      FillNobody(Abs());
    }

    /** Searches and merchant listings: `hits` are the rows the query matches. */
    method HandleListing(hits: set<int>) returns (found: seq<Commodity>, ghost ids: seq<int>)
      requires Valid() && hits <= db.t.commodities.Keys
      modifies cm
      ensures Kept()
      ensures Valid() && cm.Grows()
      ensures Enumerates(ids, hits) && |found| == |ids|
      ensures forall k :: 0 <= k < |ids| ==> found[k].id == ids[k] && cm.Cached(found[k])
      ensures Abs() == Looked(old(Abs()), hits, {})
    {
      FillNobody(Abs());
      found, ids := cm.LoadAll(hits);
    }

    /** The cart view: each line with its discounted price, and the total that `checkout` would
      charge. */
    method ViewCart(n: string) returns (ok: bool, items: seq<OrderItem>, total: real, ghost ids: seq<int>)
      requires Valid()
      modifies um
      ensures Kept()
      ensures Valid()
      ensures Abs() == Looked(old(Abs()), {}, {n})
      ensures ok <==> n in db.t.users && db.t.users[n].kind == Consumer
      ensures ok ==> total == Total(CartLines(db.t, db.t.users[n].id))
      ensures ok ==> var uid := db.t.users[n].id;
        var cart: map<int, int> := if uid in db.t.carts then db.t.carts[uid] else map[];
        && total == Sum(map c | c in cart && c in db.t.commodities ::
            db.t.commodities[c].basePrice * db.t.commodities[c].discount * cart[c] as real)
        && Enumerates(ids, cart.Keys * db.t.commodities.Keys) && |items| == |ids|
        && forall k :: 0 <= k < |ids| ==> (
            && ids[k] in cart && ids[k] in db.t.commodities
            && var row := db.t.commodities[ids[k]];
              items[k] == OrderItem(row.name, cart[ids[k]], row.basePrice * row.discount))
    {
      var u := FindUser(n);
      FillNobody(Abs());
      ok, items, total, ids := false, [], 0.0, [];
      if u == null || u.kind != Consumer { return; }
      ok := true;
      items, ids := om.GetCartItems(u.id);
      total := TotalOf(items, db.t.commodities, CartLines(db.t, u.id), ids);
      CartBill(db.t, u.id, if u.id in db.t.carts then db.t.carts[u.id] else map[]);
    }

    /** The order view reports every order of the user as it stands, newest first, and what
      paying it costs. */
    method ViewOrders(n: string) returns (ok: bool, orders: seq<Order>, totals: seq<real>, ghost ids: seq<seq<int>>)
      requires Valid()
      modifies um
      ensures Kept()
      ensures Valid()
      ensures Abs() == Looked(old(Abs()), {}, {n})
      ensures ok <==> n in db.t.users && db.t.users[n].kind == Consumer
      ensures ok ==> var uid := db.t.users[n].id;
        forall o :: o in db.t.orders && db.t.orders[o].userId == uid ==> exists k :: 0 <= k < |orders| && orders[k].id == o
      ensures (ok || orders == []) && |totals| == |orders| == |ids|
      ensures forall k :: 0 <= k < |orders| ==> Reports(db.t, orders[k], orders[k].id, ids[k]) && orders[k].userId == db.t.users[n].id
      ensures forall j, k :: 0 <= j < k < |orders| ==> orders[k].id < orders[j].id
      ensures forall k :: 0 <= k < |orders| ==> (
        && orders[k].id in db.t.orders
        && var lines := db.t.orders[orders[k].id].lines;
          totals[k] == Sum(map c | c in lines :: lines[c].unitPrice * lines[c].quantity as real))
    {
      var u := FindUser(n);
      FillNobody(Abs());
      ok, orders, totals, ids := false, [], [], [];
      if u == null || u.kind != Consumer { return; }
      ok := true;
      orders, ids := om.GetOrders(u.id);
      totals := TotalsOf(orders, db.t, ids);
      forall k | 0 <= k < |orders| { OrderBill(db.t.orders[orders[k].id].lines); }
    }

    /** Commodity lists for a signed-in merchant or consumer. */
    method HandleOwnListing(n: string, kind: UserKind, hits: set<int>) returns (ghost ids: set<int>)
      requires Valid() && hits <= db.t.commodities.Keys
      modifies um, cm
      ensures Kept()
      ensures Valid() && ids <= hits
      ensures Abs() == Looked(old(Abs()), ids, {n})
    {
      ids := {};
      var u := FindUser(n);
      FillNobody(Abs());
      if u == null || u.kind != kind { return; }
      var found, order := HandleListing(hits);
      ids := hits;
    }

    /** What a message that may write asks for. */
    method Dispatch(w: Wire, n: string, op: Op) returns (r: Reply)
      requires Valid() && AsPassword(op, w.password, w.secret)
      modifies db, um, um.userMap.Values, cm, cm.idMap.Values
      ensures Kept()
      ensures Valid() && old(db.faults) <= db.faults
      ensures AnswersUser(old(Abs()), n, op, r, Abs(), old(db.faults) < db.faults)
    {
      if Role(op) == Merchant {
        r := HandleMerchantOperation(n, op, w.password, w.secret);
      } else if op.RechargeOp? || op.PasswordOp? {
        r := HandleConsumerOperation(n, op, w.password, w.secret);
      } else if op.PayOp? || op.CancelOp? {
        r := HandleOrderOperation(n, op);
      } else {
        r := HandleCartOperation(n, op);
      }
    }

    /** Searches and listings; `hits` are the rows the query matches, of which `ids` are loaded. */
    method ServeListing(w: Wire, hits: set<int>) returns (ghost ids: set<int>)
      requires Valid() && hits <= db.t.commodities.Keys && Routing.Lists(w)
      modifies um, cm
      ensures Kept()
      ensures Valid() && ids <= hits
      ensures Abs() == Looked(old(Abs()), ids, Asker(w))
    {
      if w.action == "searchCommodities" {
        var found, order := HandleListing(hits);
        ids := hits;
      } else {
        assert Asker(w) == {w.username};
        ids := HandleOwnListing(w.username, if w.action == "merchantOperation" then Merchant else Consumer, hits);
      }
    }

    /** What `isReadOnly` lets through, and the codes no switch knows. */
    method ServeReadOnly(w: Wire, hits: set<int>) returns (ghost ids: set<int>)
      requires Valid() && hits <= db.t.commodities.Keys && !Writes(w)
      modifies um, cm
      ensures Kept()
      ensures Valid() && ids <= hits
      ensures Abs() == Looked(old(Abs()), if Routing.Lists(w) then ids else {}, Asker(w))
    {
      ids := {};
      if Routing.Lists(w) {
        ids := ServeListing(w, hits);
      } else if w.action in ACTIONS && w.action != "register" {
        assert Asker(w) == {w.username};
        if w.action == "cartOperation" && w.operation == 1 {
          var ok, items, total, ids := ViewCart(w.username);
        } else if w.action == "orderOperation" && w.operation == 0 {
          var ok, orders, totals, ids := ViewOrders(w.username);
        } else {
          var u := HandleLogin(w.username);
        }
      } else {
        FillNobody(Abs());
      }
    }

    /** A message from end to end. An unknown action is answered before any lock is taken. */
    method Serve(w: Wire, now: int, hits: set<int>) returns (r: Reply, ghost ids: set<int>)
      requires Valid() && hits <= db.t.commodities.Keys
      modifies db, um, um.userMap.Values, cm, cm.idMap.Values
      ensures Kept()
      ensures Valid() && ids <= hits && old(db.faults) <= db.faults
      ensures Answers(old(Abs()), Route(w, now, ids), r, Abs(), old(db.faults) < db.faults)
      ensures Step(old(Abs()), Route(w, now, ids), r, Abs())
      ensures Invariants.BooksFine(old(Abs())) ==>
        Codes.Does(old(db.t), old(cm.Shelves()), w, now, r, db.t, cm.Shelves(), old(db.faults) < db.faults)
    {
      r, ids := Refused, {};
      RoutesApart(w, now, ids);
      var q := Route(w, now, {});
      if w.action !in ACTIONS {
      } else if w.action == "register" {
        r := HandleRegister(w, now);
      } else if q.By? {
        RoutedPassword(w, now);
        r := Dispatch(w, q.name, q.op);
      } else {
        r := Ok;
        ids := ServeReadOnly(w, hits);
        RoutesApart(w, now, ids);
      }
      AnswersStep(old(Abs()), Route(w, now, ids), r, Abs(), old(db.faults) < db.faults);
      if Invariants.BooksFine(old(Abs())) {
        Codes.MessageDoes(old(Abs()), w, now, ids, r, Abs(), old(db.faults) < db.faults);
      }
    }
  }
}
