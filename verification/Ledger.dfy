/** The two accounts the tables keep: who is worth what, and where the goods are.

  `Worth` takes a user's balance, hands back what PAID orders brought in and returns what the
  user's own PAID orders took; `Supply` adds to a commodity's stock the quantities that PENDING
  and PAID orders hold. Each step changes `Worth` only by a recharge and `Supply` only when a
  merchant adds or restocks goods. */
module Ledger {
  import opened Sums
  import opened Tables
  import opened Shop
  import opened Invariants
  import opened Payments

  function IfPaid(order: OrderRow, x: real): real { if order.status == Paid then x else 0.0 }

  ghost function EarnedOn(owner: map<int, string>, orders: map<int, OrderRow>, n: string): map<int, real> {
    map o | o in orders :: IfPaid(orders[o], Sales(owner, Amounts(orders[o].lines), n))
  }

  /** What merchant `n` sold on PAID orders. */
  ghost function Earned(owner: map<int, string>, orders: map<int, OrderRow>, n: string): real {
    Sum(EarnedOn(owner, orders, n))
  }

  ghost function OwnTotal(order: OrderRow, uid: int): real {
    if order.userId == uid then Total(order.lines) else 0.0
  }

  ghost function SpentOn(orders: map<int, OrderRow>, uid: int): map<int, real> {
    map o | o in orders :: IfPaid(orders[o], OwnTotal(orders[o], uid))
  }

  /** What user `uid` paid for their own PAID orders. */
  ghost function Spent(orders: map<int, OrderRow>, uid: int): real { Sum(SpentOn(orders, uid)) }

  function Quantity(lines: map<int, Line>, c: int): int {
    if c in lines then lines[c].quantity else 0
  }

  function HeldBy(order: OrderRow, c: int): int {
    if order.status == Cancelled then 0 else Quantity(order.lines, c)
  }

  function HeldOn(orders: map<int, OrderRow>, c: int): map<int, int> {
    map o | o in orders :: HeldBy(orders[o], c)
  }

  /** The quantity of `c` on PENDING and PAID orders. */
  ghost function Held(orders: map<int, OrderRow>, c: int): int { Count(HeldOn(orders, c)) }

  ghost function Worth(t: Database, n: string): real {
    if n in t.users
    then t.users[n].balance - Earned(Owners(t), t.orders, n) + Spent(t.orders, t.users[n].id)
    else 0.0
  }

  ghost function Supply(t: Database, c: int): int {
    if c in t.commodities then t.commodities[c].storage + Held(t.orders, c) else 0
  }

  // ---- Single changes of the order table ----

  lemma {:induction false} ReplaceEarned(owner: map<int, string>, orders: map<int, OrderRow>, o: int, order: OrderRow, n: string)
    requires o in orders
    ensures Earned(owner, orders[o := order], n) == Earned(owner, orders, n)
      - IfPaid(orders[o], Sales(owner, Amounts(orders[o].lines), n)) + IfPaid(order, Sales(owner, Amounts(order.lines), n))
  {
    var sold, x := EarnedOn(owner, orders, n), IfPaid(order, Sales(owner, Amounts(order.lines), n));
    SumReplace(sold, o, x);
    assert EarnedOn(owner, orders[o := order], n) == sold[o := x];
  }

  lemma {:induction false} ReplaceSpent(orders: map<int, OrderRow>, o: int, order: OrderRow, uid: int)
    requires o in orders
    ensures Spent(orders[o := order], uid)
      == Spent(orders, uid) - IfPaid(orders[o], OwnTotal(orders[o], uid)) + IfPaid(order, OwnTotal(order, uid))
  {
    var paid, x := SpentOn(orders, uid), IfPaid(order, OwnTotal(order, uid));
    SumReplace(paid, o, x);
    assert SpentOn(orders[o := order], uid) == paid[o := x];
  }

  lemma {:induction false} ReplaceHeld(orders: map<int, OrderRow>, o: int, order: OrderRow, c: int)
    requires o in orders
    ensures Held(orders[o := order], c) == Held(orders, c) - HeldBy(orders[o], c) + HeldBy(order, c)
  {
    CountReplace(HeldOn(orders, c), o, HeldBy(order, c));
    assert HeldOn(orders[o := order], c) == HeldOn(orders, c)[o := HeldBy(order, c)];
  }

  lemma {:induction false} InsertUnpaid(owner: map<int, string>, orders: map<int, OrderRow>, o: int, order: OrderRow, n: string, uid: int)
    requires o !in orders && order.status == Pending
    ensures Earned(owner, orders[o := order], n) == Earned(owner, orders, n)
    ensures Spent(orders[o := order], uid) == Spent(orders, uid)
  {
    var sold, paid := EarnedOn(owner, orders, n), SpentOn(orders, uid);
    SumInsert(sold, o, 0.0);
    SumInsert(paid, o, 0.0);
    assert EarnedOn(owner, orders[o := order], n) == sold[o := 0.0];
    assert SpentOn(orders[o := order], uid) == paid[o := 0.0];
  }

  /** A new PENDING order earns nobody anything yet, but holds its goods. */
  lemma {:induction false} InsertOrder(owner: map<int, string>, orders: map<int, OrderRow>, o: int, order: OrderRow,
                                       n: string, uid: int, c: int)
    requires o !in orders && order.status == Pending
    ensures Earned(owner, orders[o := order], n) == Earned(owner, orders, n)
    ensures Spent(orders[o := order], uid) == Spent(orders, uid)
    ensures Held(orders[o := order], c) == Held(orders, c) + Quantity(order.lines, c)
  {
    InsertUnpaid(owner, orders, o, order, n, uid);
    var held := HeldOn(orders, c);
    CountInsert(held, o, HeldBy(order, c));
    assert HeldOn(orders[o := order], c) == held[o := HeldBy(order, c)];
  }

  // ---- The accounts under each operation ----

  lemma {:induction false} PlaceOrderWorth(s: State, uid: int, now: int, n: string)
    requires BooksFine(s)
    ensures Worth(PlaceOrder(s, uid, now).db, n) == Worth(s.db, n)
  {
    var t, t' := s.db, PlaceOrder(s, uid, now).db;
    OwnersStay(t, t');
    InsertOrder(Owners(t), t.orders, t.lastOrder + 1, OrderRow(uid, Pending, now, CartLines(t, uid)), n,
      if n in t.users then t.users[n].id else 0, 0);
  }

  /** What an order holds of `c` although the guarded UPDATE did not match the row. */
  function Oversold(t: Database, lines: map<int, Line>, c: int): int {
    if c in lines && c in t.commodities && t.commodities[c].storage < lines[c].quantity then lines[c].quantity else 0
  }

  /** Goods are held without being taken exactly where the guard fails. */
  lemma {:induction false} PlaceOrderBooks(s: State, uid: int, now: int, n: string, c: int)
    requires BooksFine(s)
    ensures Worth(PlaceOrder(s, uid, now).db, n) == Worth(s.db, n)
    ensures Supply(PlaceOrder(s, uid, now).db, c) == Supply(s.db, c) + Oversold(s.db, CartLines(s.db, uid), c)
  {
    var t := s.db;
    PlaceOrderWorth(s, uid, now, n);
    InsertOrder(Owners(t), t.orders, t.lastOrder + 1, OrderRow(uid, Pending, now, CartLines(t, uid)), n, 0, c);
  }

  /** Marking a PENDING order PAID books its sales and its buyer's spending. */
  lemma {:induction false} PaidCounts(owner: map<int, string>, orders: map<int, OrderRow>, o: int, n: string, uid: int)
    requires o in orders && orders[o].status == Pending
    ensures var orders' := orders[o := orders[o].(status := Paid)];
      && Earned(owner, orders', n) == Earned(owner, orders, n) + Sales(owner, Amounts(orders[o].lines), n)
      && Spent(orders', uid) == Spent(orders, uid) + OwnTotal(orders[o], uid)
  {
    ReplaceEarned(owner, orders, o, orders[o].(status := Paid), n);
    ReplaceSpent(orders, o, orders[o].(status := Paid), uid);
  }

  /** The balance after paying for this order. */
  ghost predicate Paying(t: Database, users': map<string, UserRow>, order: OrderRow, n: string)
    requires n in t.users
  {
    n in users' && users'[n].balance ==
      t.users[n].balance - OwnTotal(order, t.users[n].id) + Sales(Owners(t), Amounts(order.lines), n)
  }

  lemma {:induction false} PaidWorth(t: Database, users': map<string, UserRow>, o: int, n: string)
    requires SamePeople(t.users, users') && o in t.orders && t.orders[o].status == Pending
    requires n in t.users ==> Paying(t, users', t.orders[o], n)
    ensures Worth(t.(users := users', orders := t.orders[o := t.orders[o].(status := Paid)]), n) == Worth(t, n)
  {
    if n in t.users {
      assert Owners(t.(users := users', orders := t.orders[o := t.orders[o].(status := Paid)])) == Owners(t);
      PaidCounts(Owners(t), t.orders, o, n, t.users[n].id);
    }
  }

  lemma {:induction false} SettledTables(s: State, how: Split, uid: int, lines: map<int, Line>, o: int)
    requires o in s.db.orders
    ensures Mark(Charge(s, uid, lines, how), o, Paid).db
      == s.db.(users := Charge(s, uid, lines, how).db.users, orders := s.db.orders[o := s.db.orders[o].(status := Paid)])
  {
  }

  lemma {:induction false} ChargePays(s: State, how: Split, order: OrderRow, n: string)
    requires BooksFine(s) && LinesFine(order.lines) && CanPay(s, order.userId, order.lines) && n in s.db.users
    ensures Paying(s.db, Charge(s, order.userId, order.lines, how).db.users, order, n)
  {
    AmountsNonneg(order.lines);
    ChargeBalance(s, order.userId, order.lines, how, n);
  }

  lemma {:induction false} SettleWorth(s: State, how: Split, o: int, n: string)
    requires BooksFine(s) && o in s.db.orders && s.db.orders[o].status == Pending
    requires CanPay(s, s.db.orders[o].userId, s.db.orders[o].lines)
    ensures var s' := Mark(Charge(s, s.db.orders[o].userId, s.db.orders[o].lines, how), o, Paid);
      Worth(s'.db, n) == Worth(s.db, n)
  {
    var order := s.db.orders[o];
    var users' := Charge(s, order.userId, order.lines, how).db.users;
    AmountsNonneg(order.lines);
    ChargePurses(s, order.userId, order.lines, how);
    if n in s.db.users { ChargePays(s, how, order, n); }
    PaidWorth(s.db, users', o, n);
    SettledTables(s, how, order.userId, order.lines, o);
  }

  lemma {:induction false} SettleBooks(s: State, how: Split, o: int, n: string, c: int)
    requires BooksFine(s) && o in s.db.orders && s.db.orders[o].status == Pending
    requires CanPay(s, s.db.orders[o].userId, s.db.orders[o].lines)
    ensures var s' := Mark(Charge(s, s.db.orders[o].userId, s.db.orders[o].lines, how), o, Paid);
      Worth(s'.db, n) == Worth(s.db, n) && Supply(s'.db, c) == Supply(s.db, c)
  {
    SettleWorth(s, how, o, n);
    ReplaceHeld(s.db.orders, o, s.db.orders[o].(status := Paid), c);
  }

  lemma {:induction false} CancelBooks(s: State, o: int, n: string, c: int)
    requires BooksFine(s) && o in s.db.orders && s.db.orders[o].status == Pending
    ensures Worth(CancelInternal(s, o).db, n) == Worth(s.db, n)
    ensures Supply(CancelInternal(s, o).db, c) == Supply(s.db, c)
  {
    var t, order := s.db, s.db.orders[o];
    var t' := CancelInternal(s, o).db;
    assert Owners(t') == Owners(t);
    ReplaceEarned(Owners(t), t.orders, o, order.(status := Cancelled), n);
    ReplaceSpent(t.orders, o, order.(status := Cancelled), if n in t.users then t.users[n].id else 0);
    ReplaceHeld(t.orders, o, order.(status := Cancelled), c);
  }

  /** A user who was not registered has sold and paid for nothing. */
  lemma {:induction false} NewUserBooks(s: State, kind: UserKind, n: string, secret: string, m: string, c: int)
    requires BooksFine(s)
    ensures Worth(RegisterUser(s, kind, n, secret).0.db, m) == Worth(s.db, m)
    ensures Supply(RegisterUser(s, kind, n, secret).0.db, c) == Supply(s.db, c)
  {
    var t, t' := s.db, RegisterUser(s, kind, n, secret).0.db;
    assert Owners(t') == Owners(t);
    if n !in t.users && m == n {
      forall o | o in t.orders ensures SpentOn(t.orders, t.lastUser + 1)[o] == 0.0 {
        assert t.orders[o].userId <= t.lastUser;
      }
      SumZero(SpentOn(t.orders, t.lastUser + 1));
      forall o | o in t.orders ensures EarnedOn(Owners(t), t.orders, n)[o] == 0.0 {
        NothingSold(t, t.orders[o].lines, n);
      }
      SumZero(EarnedOn(Owners(t), t.orders, n));
    }
  }

  lemma {:induction false} NothingSold(t: Database, lines: map<int, Line>, n: string)
    requires RowsFine(t.commodities, t.users.Keys) && n !in t.users
    ensures Sales(Owners(t), Amounts(lines), n) == 0.0
  {
    forall c | c in lines ensures SalesLines(Owners(t), Amounts(lines), n)[c] == 0.0 {
      if c in t.commodities { assert RowFine(t.commodities[c], t.users.Keys); }
    }
    SumZero(SalesLines(Owners(t), Amounts(lines), n));
  }

  /** A commodity that was not for sale is on no order, and nobody sold it. */
  lemma {:induction false} NewCommodityUnsold(rows: map<int, CommodityRow>, orders: map<int, OrderRow>, last: int,
                                              id: int, row: CommodityRow, n: string)
    requires OrdersSound(orders, last, rows.Keys) && id !in rows
    ensures var owner: map<int, string> := map c | c in rows :: rows[c].merchant;
      Earned(owner[id := row.merchant], orders, n) == Earned(owner, orders, n)
    ensures Held(orders, id) == 0
  {
    var owner: map<int, string> := map c | c in rows :: rows[c].merchant;
    var owner' := owner[id := row.merchant];
    forall o | o in orders
      ensures Sales(owner', Amounts(orders[o].lines), n) == Sales(owner, Amounts(orders[o].lines), n)
      ensures HeldOn(orders, id)[o] == 0
    {
      assert orders[o].lines.Keys <= rows.Keys;
      assert SalesLines(owner', Amounts(orders[o].lines), n) == SalesLines(owner, Amounts(orders[o].lines), n);
    }
    assert EarnedOn(owner', orders, n) == EarnedOn(owner, orders, n);
    CountZero(HeldOn(orders, id));
  }

  lemma {:induction false} NewCommodityBooks(s: State, row: CommodityRow, n: string, c: int)
    requires BooksFine(s)
    ensures var id := s.db.lastCommodity + 1;
      var t' := s.db.(commodities := s.db.commodities[id := row], lastCommodity := id);
      Worth(t', n) == Worth(s.db, n) && Supply(t', c) == Supply(s.db, c) + if c == id then row.storage else 0
  {
    var t, id := s.db, s.db.lastCommodity + 1;
    var t' := t.(commodities := t.commodities[id := row], lastCommodity := id);
    assert id !in t.commodities;
    NewCommodityUnsold(t.commodities, t.orders, t.lastOrder, id, row, n);
    assert Owners(t') == Owners(t)[id := row.merchant];
  }

  /** Changing prices, discounts and stock of existing rows. */
  lemma {:induction false} RowsChangeBooks(t: Database, t': Database, n: string, c: int)
    requires t'.users == t.users && t'.orders == t.orders && SameGoods(t.commodities, t'.commodities)
    ensures Worth(t', n) == Worth(t, n)
    ensures Supply(t', c) == Supply(t, c) + if c in t.commodities then t'.commodities[c].storage - t.commodities[c].storage else 0
  {
    OwnersStay(t, t');
  }
}
