/** Whole runs: any number of requests, expiry sweeps and look-ups in any order.

  A run starts from the tables as an earlier process left them. The accounts and the orders
  are followed from any such start; what the cached stock is worth is followed from a start
  that left no order PENDING, since a commodity of such an order may be restocked before it
  is cached. */
module Runs {
  import opened Sums
  import opened Tables
  import opened Shop
  import opened Requests
  import opened Invariants
  import opened Payments
  import opened Ledger
  import opened Steps
  import Effects

  datatype Event = Event(q: Request, r: Reply)

  ghost predicate Served(ss: seq<State>, es: seq<Event>, i: nat)
    requires i < |es| < |ss|
  {
    Step(ss[i], es[i].q, es[i].r, ss[i + 1]) && Admissible(es[i].q)
  }

  /** `ss[i]` is the shop before the i-th event, `ss[|es|]` the shop at the end. */
  ghost predicate Run(ss: seq<State>, es: seq<Event>) {
    |ss| == |es| + 1 && Initial(ss[0]) && forall i: nat :: i < |es| ==> Served(ss, es, i)
  }

  ghost function RechargedBy(es: seq<Event>, n: string): real {
    if es == [] then 0.0 else
      var e := es[|es| - 1];
      RechargedBy(es[..|es| - 1], n) + Recharged(e.q, e.r, n)
  }

  function Amounting(q: Request, r: Reply): real {
    if q.By? && q.op.RechargeOp? && r == Ok then q.op.amount else 0.0
  }

  ghost function RechargedInAll(es: seq<Event>): real {
    if es == [] then 0.0 else RechargedInAll(es[..|es| - 1]) + Amounting(es[|es| - 1].q, es[|es| - 1].r)
  }

  ghost function SuppliedBy(ss: seq<State>, es: seq<Event>, c: int): int
    requires |es| < |ss|
  {
    if es == [] then 0 else
      var k := |es| - 1;
      SuppliedBy(ss, es[..k], c) + Supplied(ss[k].db, es[k].q, es[k].r, c)
  }

  /** The quantity of `c` that checkouts put on orders although the guarded UPDATE did not match. */
  ghost function OversoldIn(ss: seq<State>, es: seq<Event>, c: int): int
    requires |es| < |ss|
  {
    if es == [] then 0 else
      var k := |es| - 1;
      OversoldIn(ss, es[..k], c) + OversoldBy(ss[k].db, es[k].q, es[k].r, c)
  }

  /** The quantity of `c` on checkouts that failed at payment since its stock was last set. */
  ghost function LostSince(ss: seq<State>, es: seq<Event>, c: int): int
    requires |es| < |ss|
  {
    if es == [] then 0 else
      var k := |es| - 1;
      if Restocks(ss[k].db, es[k].q, es[k].r, c) then 0
      else LostSince(ss, es[..k], c) + LostAtPayment(ss[k], es[k].q, es[k].r, c)
  }

  // ---- What holds in every state of a run ----

  lemma {:induction false} RunFine(ss: seq<State>, es: seq<Event>, i: nat)
    requires Run(ss, es) && i <= |es|
    ensures BooksFine(ss[i])
  {
    if i == 0 {
      InitialInv(ss[0]);
    } else {
      RunFine(ss, es, i - 1);
      assert Served(ss, es, i - 1);
      StepFine(ss[i - 1], es[i - 1].q, es[i - 1].r, ss[i]);
    }
  }

  lemma {:induction false} RunInv(ss: seq<State>, es: seq<Event>, i: nat)
    requires Run(ss, es) && NoneOpen(ss[0].db) && i <= |es|
    ensures Inv(ss[i])
  {
    if i == 0 {
      InitialInv(ss[0]);
    } else {
      RunInv(ss, es, i - 1);
      assert Served(ss, es, i - 1);
      StepInv(ss[i - 1], es[i - 1].q, es[i - 1].r, ss[i]);
    }
  }

  /** Users and commodities stay for good, under the same ids and names. */
  lemma {:induction false} RowsStay(ss: seq<State>, es: seq<Event>, i: nat, j: nat)
    requires Run(ss, es) && i <= j <= |es|
    ensures RowsKept(ss[i].db, ss[j].db)
    decreases j
  {
    if i < j {
      RowsStay(ss, es, i, j - 1);
      RunFine(ss, es, j - 1);
      assert Served(ss, es, j - 1);
      StepRows(ss[j - 1], es[j - 1].q, es[j - 1].r, ss[j]);
    }
  }

  // ---- The accounts ----

  lemma {:induction false} RunBooks(ss: seq<State>, es: seq<Event>, i: nat, n: string, c: int)
    requires Run(ss, es) && i <= |es|
    ensures Worth(ss[i].db, n) == Worth(ss[0].db, n) + RechargedBy(es[..i], n)
    ensures Supply(ss[i].db, c) == Supply(ss[0].db, c) + SuppliedBy(ss, es[..i], c) + OversoldIn(ss, es[..i], c)
  {
    if i != 0 {
      RunBooks(ss, es, i - 1, n, c);
      RunFine(ss, es, i - 1);
      assert Served(ss, es, i - 1);
      StepBooks(ss[i - 1], es[i - 1].q, es[i - 1].r, ss[i], n, c);
      assert es[..i][..i - 1] == es[..i - 1];
    }
  }

  /** The ledger. Whoever is registered at the start still is at the end, and the balance then
    is the balance at the start, plus every accepted recharge, plus what PAID orders brought in,
    minus what the user's own PAID orders took (all counted since the start); it is never negative. */
  lemma {:induction false} BalancesAddUp(ss: seq<State>, es: seq<Event>, n: string)
    requires Run(ss, es) && n in ss[0].db.users
    ensures var a, z := ss[0].db, ss[|es|].db;
      && n in z.users && z.users[n].id == a.users[n].id
      && z.users[n].balance == a.users[n].balance + RechargedBy(es, n)
        + (Earned(Owners(z), z.orders, n) - Earned(Owners(a), a.orders, n))
        - (Spent(z.orders, z.users[n].id) - Spent(a.orders, a.users[n].id))
      && 0.0 <= z.users[n].balance
  {
    RowsStay(ss, es, 0, |es|);
    RunBooks(ss, es, |es|, n, 0);
    RunFine(ss, es, |es|);
    assert es[..|es|] == es;
  }

  /** The same for a user who registered during the run, starting from nothing. */
  lemma {:induction false} NewBalancesAddUp(ss: seq<State>, es: seq<Event>, n: string)
    requires Run(ss, es) && n !in ss[0].db.users && n in ss[|es|].db.users
    ensures var z := ss[|es|].db;
      && z.users[n].balance == RechargedBy(es, n) + Earned(Owners(z), z.orders, n) - Spent(z.orders, z.users[n].id)
      && 0.0 <= z.users[n].balance
  {
    RunBooks(ss, es, |es|, n, 0);
    RunFine(ss, es, |es|);
    assert es[..|es|] == es;
  }

  // ---- Money as a whole ----

  lemma {:induction false} FineMoney(s: State, uid: int, lines: map<int, Line>, how: Split, o: int)
    requires BooksFine(s) && CanPay(s, uid, lines) && LinesFine(lines) && lines.Keys <= s.db.commodities.Keys
    ensures Money(Mark(Charge(s, uid, lines, how), o, Paid).db.users) == Money(s.db.users)
  {
    AmountsNonneg(lines);
    FineSellers(s.db, lines);
    FineRefusesNothing(how, Owners(s.db), Amounts(lines), s.db.users.Keys);
    PaymentKeepsMoney(s, uid, lines, how);
  }

  lemma {:induction false} RechargeMoney(s: State, n: string, amount: real)
    requires PursesAgree(s.purse, s.db.users) && n in s.purse && n in s.db.users
    ensures Money(Recharge(s, n, amount).0.db.users)
      == Money(s.db.users) + if Recharge(s, n, amount).1 then amount else 0.0
  {
    var users, balance := s.db.users, s.purse[n] + amount;
    SumReplace(Balances(users), n, balance);
    assert Balances(users[n := users[n].(balance := balance)]) == Balances(users)[n := balance];
  }

  lemma {:induction false} PasswordMoney(s: State, n: string, secret: Option<string>)
    requires n in s.db.users
    ensures Money(SetPassword(s, n, secret).0.db.users) == Money(s.db.users)
  {
    assert Balances(SetPassword(s, n, secret).0.db.users) == Balances(s.db.users);
  }

  lemma {:induction false} PayOrderMoney(s: State, uid: int, o: int)
    requires BooksFine(s)
    ensures Money(PayOrder(s, uid, o).0.db.users) == Money(s.db.users)
  {
    if PayOrder(s, uid, o).1 == Settlement {
      FineMoney(s, uid, s.db.orders[o].lines, Grouped, o);
    } else {
      assert PayOrder(s, uid, o).0.db == s.db;
    }
  }

  lemma {:induction false} CheckoutMoney(s: State, uid: int, pay: bool, now: int, r: CheckoutResult, s': State)
    requires BooksFine(s) && 1 <= uid <= s.db.lastUser && Checkout(s, uid, pay, now, r, s')
    ensures Money(s'.db.users) == Money(s.db.users)
  {
    if r.Placed? && pay {
      PlaceOrderFine(s, uid, now);
      PlacedPays(s, uid, now);
      CartLinesFine(s, uid);
      FineMoney(PlaceOrder(s, uid, now), uid, CartLines(s.db, uid), PerLine, s.db.lastOrder + 1);
    } else {
      assert s'.db.users == s.db.users;
    }
  }

  lemma {:induction false} OperateMoney(s: State, n: string, op: Op, r: Reply, s': State)
    requires BooksFine(s) && n in s.purse && n in s.db.users && Operate(s, n, op, r, s')
    ensures Money(s'.db.users) == Money(s.db.users) + Amounting(By(n, op), r)
  {
    var uid := s.db.users[n].id;
    if GoodsOp(op) {
      GoodsOnly(s, n, op, r, s');
    } else if op.RechargeOp? {
      RechargeMoney(s, n, op.amount);
    } else if op.PasswordOp? {
      PasswordMoney(s, n, op.secret);
    } else if op.PayOp? {
      PayOrderMoney(s, uid, op.order);
    } else if op.CheckoutOp? {
      CheckoutMoney(s, uid, op.pay, op.now, r.checkout, s');
    } else {
      assert s'.db.users == s.db.users;
    }
  }

  lemma {:induction false} RegisterMoney(s: State, kind: UserKind, n: string, secret: string)
    ensures Money(RegisterUser(s, kind, n, secret).0.db.users) == Money(s.db.users)
  {
    if n !in s.db.users {
      SumInsert(Balances(s.db.users), n, 0.0);
      assert Balances(RegisterUser(s, kind, n, secret).0.db.users) == Balances(s.db.users)[n := 0.0];
    }
  }

  lemma {:induction false} ExpireMoney(s: State, cutoff: int, count: int, s': State)
    requires BooksFine(s) && Sweep(s, cutoff, count, s')
    ensures s'.db.users == s.db.users
  {
    SweepTwin(s, cutoff, count, s');
  }

  lemma {:induction false} StepMoney(s: State, q: Request, r: Reply, s': State)
    requires BooksFine(s) && Step(s, q, r, s')
    ensures Money(s'.db.users) == Money(s.db.users) + Amounting(q, r)
  {
    match q
    case Register(kind, n, secret) => RegisterMoney(s, kind, n, secret);
    case Reject =>
    case By(n, op) =>
      LookedFine(s, {}, {n});
      if n in s.db.users && s.db.users[n].kind == Role(op) { OperateMoney(LoadPurses(s, {n}), n, op, r, s'); }
    case Expire(cutoff) => ExpireMoney(s, cutoff, r.count, s');
    case Fill(ids, names) =>
  }

  /** The sum of all balances changes only by recharges. */
  lemma {:induction false} MoneyIsConserved(ss: seq<State>, es: seq<Event>, i: nat)
    requires Run(ss, es) && i <= |es|
    ensures Money(ss[i].db.users) == Money(ss[0].db.users) + RechargedInAll(es[..i])
  {
    if i != 0 {
      MoneyIsConserved(ss, es, i - 1);
      RunFine(ss, es, i - 1);
      assert Served(ss, es, i - 1);
      StepMoney(ss[i - 1], es[i - 1].q, es[i - 1].r, ss[i]);
      assert es[..i][..i - 1] == es[..i - 1];
    }
  }

  /** Between two states of the tables, money came in by recharges only, and the balance of
    `n` is what they had, recharged, earned and spent; it is not negative. */
  ghost predicate AccountsRight(a: Database, z: Database, es: seq<Event>, n: string)
    requires n in a.users
  {
    && Money(z.users) == Money(a.users) + RechargedInAll(es)
    && n in z.users
    && z.users[n].balance == a.users[n].balance + RechargedBy(es, n)
      + (Earned(Owners(z), z.orders, n) - Earned(Owners(a), a.orders, n))
      - (Spent(z.orders, z.users[n].id) - Spent(a.orders, a.users[n].id))
    && 0.0 <= z.users[n].balance
  }

  lemma {:induction false} RunAccounts(ss: seq<State>, es: seq<Event>, n: string)
    requires Run(ss, es) && n in ss[0].db.users
    ensures AccountsRight(ss[0].db, ss[|es|].db, es, n)
  {
    BalancesAddUp(ss, es, n);
    MoneyIsConserved(ss, es, |es|);
    assert es[..|es|] == es;
  }

  // ---- Stock ----

  /** From any start: what is on the shelf and what PENDING and PAID orders hold is what was
    there at the start, plus what merchants supplied, plus what was oversold. */
  lemma {:induction false} StockAddsUp(ss: seq<State>, es: seq<Event>, c: int)
    requires Run(ss, es) && c in ss[|es|].db.commodities
    ensures var z := ss[|es|].db;
      && z.commodities[c].storage + Held(z.orders, c) == Supply(ss[0].db, c) + SuppliedBy(ss, es, c) + OversoldIn(ss, es, c)
      && 0 <= z.commodities[c].storage
  {
    RunBooks(ss, es, |es|, "", c);
    RunFine(ss, es, |es|);
    assert es[..|es|] == es;
    assert RowFine(ss[|es|].db.commodities[c], ss[|es|].db.users.Keys);
  }

  lemma {:induction false} NothingOversold(ss: seq<State>, es: seq<Event>, i: nat, c: int)
    requires Run(ss, es) && NoneOpen(ss[0].db) && i <= |es|
    ensures OversoldIn(ss, es[..i], c) == 0
  {
    if i != 0 {
      NothingOversold(ss, es, i - 1, c);
      RunInv(ss, es, i - 1);
      assert Served(ss, es, i - 1);
      NeverOversold(ss[i - 1], es[i - 1].q, es[i - 1].r, ss[i], c);
      assert es[..i][..i - 1] == es[..i - 1];
    }
  }

  /** Stock is conserved when no order was left open: shelf and orders together hold what was
    there at the start plus what merchants supplied; and no commodity is oversold. */
  lemma {:induction false} StockIsConserved(ss: seq<State>, es: seq<Event>, c: int)
    requires Run(ss, es) && NoneOpen(ss[0].db) && c in ss[|es|].db.commodities
    ensures var z := ss[|es|].db;
      && z.commodities[c].storage + Held(z.orders, c) == Supply(ss[0].db, c) + SuppliedBy(ss, es, c)
      && 0 <= z.commodities[c].storage
      && Held(z.orders, c) <= Supply(ss[0].db, c) + SuppliedBy(ss, es, c)
  {
    StockAddsUp(ss, es, c);
    NothingOversold(ss, es, |es|, c);
    assert es[..|es|] == es;
  }

  lemma {:induction false} RunGap(ss: seq<State>, es: seq<Event>, i: nat, c: int)
    requires Run(ss, es) && NoneOpen(ss[0].db) && i <= |es|
    ensures Gap(ss[i], c) == LostSince(ss, es[..i], c)
  {
    if i != 0 {
      RunGap(ss, es, i - 1, c);
      RunInv(ss, es, i - 1);
      assert Served(ss, es, i - 1);
      StepGap(ss[i - 1], es[i - 1].q, es[i - 1].r, ss[i], c);
      assert es[..i][..i - 1] == es[..i - 1];
    }
  }

  /** The cached stock of a commodity is its stored stock less what checkouts that could not
    pay took since the stock was last set; it is never negative. Cached prices are exact. */
  lemma {:induction false} CacheDrift(ss: seq<State>, es: seq<Event>, c: int)
    requires Run(ss, es) && NoneOpen(ss[0].db) && c in ss[|es|].shelf
    ensures c in ss[|es|].db.commodities
    ensures var shelf, row := ss[|es|].shelf[c], ss[|es|].db.commodities[c];
      && 0 <= shelf.storage == row.storage - LostSince(ss, es, c)
      && 0 <= LostSince(ss, es, c)
      && shelf.basePrice == row.basePrice && shelf.discount == row.discount
  {
    RunGap(ss, es, |es|, c);
    RunInv(ss, es, |es|);
    assert es[..|es|] == es;
    assert ShelfFits(ss[|es|].shelf[c], ss[|es|].db.commodities[c]);
  }

  // ---- Orders ----

  lemma {:induction false} OrdersStay(ss: seq<State>, es: seq<Event>, i: nat, j: nat)
    requires Run(ss, es) && i <= j <= |es|
    ensures OrdersKept(ss[i].db, ss[j].db)
    decreases j
  {
    RunFine(ss, es, j);
    if i < j {
      OrdersStay(ss, es, i, j - 1);
      RunFine(ss, es, j - 1);
      assert Served(ss, es, j - 1);
      StepOrders(ss[j - 1], es[j - 1].q, es[j - 1].r, ss[j]);
    }
  }

  /** The i-th event pays for order `o` or puts its goods back. */
  ghost predicate Closes(ss: seq<State>, es: seq<Event>, i: nat, o: int)
    requires i < |es| < |ss|
  {
    Pays(es[i].q, es[i].r, o) || PutsBack(ss[i].db, es[i].q, es[i].r, o)
  }

  lemma {:induction false} ClosesTurns(ss: seq<State>, es: seq<Event>, i: nat, o: int)
    requires Run(ss, es) && i < |es|
    ensures var orders, orders' := ss[i].db.orders, ss[i + 1].db.orders;
      Closes(ss, es, i, o) <==> Turns(orders, orders', o, Paid) || Turns(orders, orders', o, Cancelled)
  {
    RunFine(ss, es, i);
    assert Served(ss, es, i);
    StepTurns(ss[i], es[i].q, es[i].r, ss[i + 1], o);
  }

  lemma {:induction false} FinalStays(t: Database, t': Database, orders: map<int, OrderRow>, orders': map<int, OrderRow>, o: int)
    requires OrdersKept(t, t') && o in t.orders && t.orders[o].status != Pending && orders == t'.orders
    ensures !Turns(orders, orders', o, Paid) && !Turns(orders, orders', o, Cancelled)
  {
    assert OrderKept(t.orders[o], t'.orders[o]);
  }

  /** In a whole run an order is paid for at most once, its goods are put back at most once,
    and never both. */
  lemma {:induction false} ClosedOnce(ss: seq<State>, es: seq<Event>, i: nat, j: nat, o: int)
    requires Run(ss, es) && i < j < |es| && Closes(ss, es, i, o)
    ensures !Closes(ss, es, j, o)
  {
    ClosesTurns(ss, es, i, o);
    ClosesTurns(ss, es, j, o);
    OrdersStay(ss, es, i + 1, j);
    FinalStays(ss[i + 1].db, ss[j].db, ss[j].db.orders, ss[j + 1].db.orders, o);
  }

  lemma {:induction false} CloserStays(ss: seq<State>, es: seq<Event>, i: nat, o: int)
    requires Run(ss, es) && i < |es| && es[i].q.By? && Closes(ss, es, i, o)
    ensures var z, n := ss[|es|].db, es[i].q.name; o in z.orders && n in z.users && z.users[n].id == z.orders[o].userId
  {
    RunFine(ss, es, i);
    assert Served(ss, es, i);
    CloserOwns(ss[i], es[i].q, es[i].r, ss[i + 1], o);
    RowsStay(ss, es, i, |es|);
    OrdersStay(ss, es, i + 1, |es|);
    assert OrderKept(ss[i + 1].db.orders[o], ss[|es|].db.orders[o]);
  }

  lemma {:induction false} ClosingEvent(ss: seq<State>, es: seq<Event>, o: int, status: Status) returns (i: nat)
    requires Run(ss, es) && status != Pending && Turns(ss[0].db.orders, ss[|es|].db.orders, o, status)
    ensures i < |es|
    ensures if status == Paid then Pays(es[i].q, es[i].r, o) else PutsBack(ss[i].db, es[i].q, es[i].r, o)
    decreases |es|
  {
    i := |es| - 1;
    RunFine(ss, es, i);
    assert Served(ss, es, i);
    StepTurns(ss[i], es[i].q, es[i].r, ss[i + 1], o);
    OrdersStay(ss, es, 0, i);
    OrdersStay(ss, es, i, i + 1);
    if !Turns(ss[i].db.orders, ss[|es|].db.orders, o, status) {
      assert o in ss[i].db.orders && OrderKept(ss[i].db.orders[o], ss[i + 1].db.orders[o]);
      var ss', es' := ss[..i + 1], es[..i];
      forall k: nat | k < |es'| ensures Served(ss', es', k) { assert Served(ss, es, k); }
      i := ClosingEvent(ss', es', o, status);
    }
  }

  /** An order that is PAID or CANCELLED at the end and was not so at the start became so by
    exactly such an event: a sweep that found it expired, or a request of its owner. */
  lemma {:induction false} ClosedBy(ss: seq<State>, es: seq<Event>, o: int, status: Status) returns (i: nat)
    requires Run(ss, es) && status != Pending && Turns(ss[0].db.orders, ss[|es|].db.orders, o, status)
    ensures i < |es|
    ensures if status == Paid then Pays(es[i].q, es[i].r, o) else PutsBack(ss[i].db, es[i].q, es[i].r, o)
    ensures es[i].q.By? ==> var z, n := ss[|es|].db, es[i].q.name; n in z.users && z.users[n].id == z.orders[o].userId
  {
    i := ClosingEvent(ss, es, o, status);
    if es[i].q.By? { CloserStays(ss, es, i, o); }
  }

  /** What was in the cart when it was checked out, at the prices and discounts of that moment,
    is what the order holds ever after, and its total is the total that was shown, whatever
    happens to prices and discounts. */
  lemma {:induction false} TotalIsFixed(ss: seq<State>, es: seq<Event>, i: nat, j: nat, n: string, pay: bool, now: int, id: int)
    requires Run(ss, es) && i < j <= |es| && es[i] == Event(By(n, CheckoutOp(pay, now)), Ordered(Placed(id)))
    ensures n in ss[i].db.users && id in ss[j].db.orders && id !in ss[i].db.orders
    ensures var uid := ss[i].db.users[n].id;
      && ss[j].db.orders[id].userId == uid
      && Total(ss[j].db.orders[id].lines) == Total(CartLines(ss[i].db, uid))
      && (pay ==> ss[j].db.orders[id].status == Paid)
    ensures var t, lines := ss[i].db, ss[j].db.orders[id].lines;
      var cart: map<int, int> := if t.users[n].id in t.carts then t.carts[t.users[n].id] else map[];
      && lines.Keys == cart.Keys <= t.commodities.Keys
      && forall c :: c in cart ==> lines[c] == Line(cart[c], t.commodities[c].basePrice * t.commodities[c].discount)
  {
    var s, t := LoadPurses(ss[i], {n}), ss[i].db;
    assert Served(ss, es, i);
    assert Operate(s, n, CheckoutOp(pay, now), es[i].r, ss[i + 1]);
    PlacedOrder(s, s.db.users[n].id, now);
    RunFine(ss, es, i);
    OrdersStay(ss, es, i + 1, j);
    assert OrderKept(ss[i + 1].db.orders[id], ss[j].db.orders[id]);
    var cart: map<int, int> := if t.users[n].id in t.carts then t.carts[t.users[n].id] else map[];
    Effects.CartIs(t, t.users[n].id, cart,
      map c | c in cart && c in t.commodities :: t.commodities[c].basePrice * t.commodities[c].discount * cart[c] as real);
  }

  lemma {:induction false} PlacedNow(ss: seq<State>, es: seq<Event>, i: nat, n: string, pay: bool, now: int, id: int)
    requires Run(ss, es) && i < |es| && es[i] == Event(By(n, CheckoutOp(pay, now)), Ordered(Placed(id)))
    ensures id in ss[i + 1].db.orders && ss[i + 1].db.orders[id].createdAt == now
  {
    var s := LoadPurses(ss[i], {n});
    assert Served(ss, es, i);
    assert Operate(s, n, CheckoutOp(pay, now), es[i].r, ss[i + 1]);
    PlacedOrder(s, s.db.users[n].id, now);
  }

  /** An order survives every sweep whose cut-off is not after the moment it was placed. */
  lemma {:induction false} FreshSurvives(ss: seq<State>, es: seq<Event>, i: nat, j: nat, n: string, pay: bool, now: int, id: int)
    requires Run(ss, es) && i < j < |es| && es[i] == Event(By(n, CheckoutOp(pay, now)), Ordered(Placed(id)))
    requires es[j].q.Expire? && es[j].q.cutoff <= now
    ensures id in ss[j].db.orders && id in ss[j + 1].db.orders && ss[j + 1].db.orders[id] == ss[j].db.orders[id]
  {
    PlacedNow(ss, es, i, n, pay, now, id);
    OrdersStay(ss, es, i + 1, j);
    assert OrderKept(ss[i + 1].db.orders[id], ss[j].db.orders[id]);
    RunFine(ss, es, j);
    assert Served(ss, es, j);
    FreshKept(ss[j], es[j].q.cutoff, es[j].r, ss[j + 1], id);
  }
}
