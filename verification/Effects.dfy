/** What each operation does, told by the fields of the rows and of the cached objects.

  The other theorems speak through the functions of `Shop`: what a line costs, which orders
  have expired, which goods a discount concerns. Here each operation is described a second
  time without them, as a client or an administrator would check it on the tables before (`t`)
  and after (`t'`), and the two descriptions are proved to agree. */
module Effects {
  import opened Sums
  import opened Tables
  import opened Shop
  import opened Requests
  import opened Invariants
  import opened Payments
  import opened Ledger
  import opened Steps

  ghost predicate IsKind(t: Database, n: string, kind: UserKind) { n in t.users && t.users[n].kind == kind }

  ghost predicate IsCalled(t: Database, c: int, name: string) { c in t.commodities && t.commodities[c].name == name }

  ghost predicate IsOffered(t: Database, c: int, n: string, name: string) { IsCalled(t, c, name) && t.commodities[c].merchant == n }

  /** The stock that a look-up sees: that of the cached object, else that of the row. */
  function StockSeen(t: Database, shelf: map<int, Shelf>, c: int): int
    requires c in t.commodities
  {
    if c in shelf then shelf[c].storage else t.commodities[c].storage
  }

  /** Nothing that was cached changed. */
  ghost predicate ShelfKept(shelf: map<int, Shelf>, shelf': map<int, Shelf>) {
    forall c :: c in shelf ==> c in shelf' && shelf'[c] == shelf[c]
  }

  // ---- Accounts ----

  ghost predicate Registers(t: Database, kind: UserKind, n: string, secret: string, r: Reply, t': Database, fault: bool) {
    || (r == Ok && n !in t.users
        && t' == t.(users := t.users[n := UserRow(t.lastUser + 1, kind, 0.0, secret)], lastUser := t.lastUser + 1))
    || (r == Refused && (n in t.users || fault) && t' == t)
  }

  ghost predicate Recharges(t: Database, n: string, amount: real, r: Reply, t': Database)
    requires n in t.users
  {
    if 0.0 < amount then r == Ok && t' == t.(users := t.users[n := t.users[n].(balance := t.users[n].balance + amount)])
    else r == Refused && t' == t
  }

  ghost predicate SetsPassword(t: Database, n: string, secret: Option<string>, r: Reply, t': Database)
    requires n in t.users
  {
    if secret.Some? then r == Ok && t' == t.(users := t.users[n := t.users[n].(password := secret.value)])
    else r == Refused && t' == t
  }

  // ---- Goods ----

  ghost predicate AddsGood(t: Database, shelf: map<int, Shelf>, n: string, kind: string, name: string, price: real, stock: int,
                     r: Reply, t': Database, shelf': map<int, Shelf>, fault: bool) {
    var known := kind == "Food" || kind == "Clothes" || kind == "Book" || kind == "Electronics";
    var taken := exists c :: c in t.commodities && t.commodities[c].name == name;
    var id := t.lastCommodity + 1;
    || (r == Ok && known && !taken && id !in t.commodities
        && t' == t.(commodities := t.commodities[id := CommodityRow(name, kind, n, price, 1.0, stock)], lastCommodity := id)
        && shelf' == shelf[id := Shelf(price, 1.0, stock)])
    || (r == Refused && (!known || taken || fault) && t' == t && shelf' == shelf)
  }

  /** One column of one row, and the same field of its object. */
  ghost predicate SetsColumn(t: Database, shelf: map<int, Shelf>, c: int, change: Change, t': Database, shelf': map<int, Shelf>)
    requires c in t.commodities
  {
    var row := t.commodities[c];
    var seen := if c in shelf then shelf[c] else Shelf(row.basePrice, row.discount, row.storage);
    match change
    case Price(p) =>
      0.0 <= p && t' == t.(commodities := t.commodities[c := row.(basePrice := p)]) && shelf' == shelf[c := seen.(basePrice := p)]
    case Stock(k) =>
      0 <= k && t' == t.(commodities := t.commodities[c := row.(storage := k)]) && shelf' == shelf[c := seen.(storage := k)]
    case Discount(d) =>
      0.0 <= d <= 1.0 && t' == t.(commodities := t.commodities[c := row.(discount := d)])
      && shelf' == shelf[c := seen.(discount := d)]
  }

  ghost predicate Sensible(change: Change) {
    match change
    case Price(p) => 0.0 <= p
    case Stock(k) => 0 <= k
    case Discount(d) => 0.0 <= d <= 1.0
  }

  ghost predicate SetsGood(t: Database, shelf: map<int, Shelf>, n: string, name: string, change: Change,
                           r: Reply, t': Database, shelf': map<int, Shelf>, fault: bool) {
    || (r == Ok && exists c :: IsOffered(t, c, n, name) && SetsColumn(t, shelf, c, change, t', shelf'))
    || (r == Refused && (!Sensible(change) || fault || forall c :: !IsOffered(t, c, n, name)) && t' == t && ShelfKept(shelf, shelf'))
  }

  /** The goods of one merchant and one type get the discount, in row and object; nothing else
    changes, and the answer is how many they are. */
  ghost predicate Discounts(t: Database, shelf: map<int, Shelf>, n: string, kind: string, d: real, count: int,
                            t': Database, shelf': map<int, Shelf>) {
    && t' == t.(commodities := t'.commodities) && t'.commodities.Keys == t.commodities.Keys && shelf'.Keys == shelf.Keys
    && count == |set c | c in t.commodities && t.commodities[c].merchant == n && t.commodities[c].kind == kind|
    && (forall c :: c in t.commodities ==> (
        if t.commodities[c].merchant == n && t.commodities[c].kind == kind
        then t'.commodities[c] == t.commodities[c].(discount := d) else t'.commodities[c] == t.commodities[c]))
    && (forall c :: c in shelf && c in t.commodities ==> (
        if t.commodities[c].merchant == n && t.commodities[c].kind == kind
        then shelf'[c] == shelf[c].(discount := d) else shelf'[c] == shelf[c]))
  }

  ghost predicate DiscountsKind(t: Database, shelf: map<int, Shelf>, n: string, kind: string, d: real,
                                r: Reply, t': Database, shelf': map<int, Shelf>, fault: bool) {
    || (0.0 <= d <= 1.0 && r.Counted? && 0 < r.count && Discounts(t, shelf, n, kind, d, r.count, t', shelf'))
    || (r == Refused && t' == t && shelf' == shelf
        && (!(0.0 <= d <= 1.0) || fault
            || forall c :: c in t.commodities ==> t.commodities[c].merchant != n || t.commodities[c].kind != kind))
  }

  // ---- The cart ----

  ghost predicate AddsItem(t: Database, shelf: map<int, Shelf>, n: string, name: string, q: int,
                     r: Reply, t': Database, shelf': map<int, Shelf>, fault: bool)
    requires n in t.users
  {
    var uid := t.users[n].id;
    var cart: map<int, int> := if uid in t.carts then t.carts[uid] else map[];
    && ShelfKept(shelf, shelf')
    && ((r == Ok && 0 < q && exists c :: (
            && IsCalled(t, c, name) && (if c in cart then cart[c] else 0) + q <= StockSeen(t, shelf, c)
            && t' == t.(carts := t.carts[uid := cart[c := (if c in cart then cart[c] else 0) + q]])))
        || (r == Refused && t' == t && (q <= 0 || fault
            || forall c :: IsCalled(t, c, name) ==> StockSeen(t, shelf, c) < (if c in cart then cart[c] else 0) + q)))
  }

  ghost predicate RemovesItem(t: Database, shelf: map<int, Shelf>, n: string, name: string,
                        r: Reply, t': Database, shelf': map<int, Shelf>, fault: bool)
    requires n in t.users
  {
    var uid := t.users[n].id;
    && ShelfKept(shelf, shelf')
    && ((r == Ok && exists c :: (
            && IsCalled(t, c, name)
            && t' == if uid in t.carts then t.(carts := t.carts[uid := t.carts[uid] - {c}]) else t))
        || (r == Refused && t' == t && (fault || forall c :: !IsCalled(t, c, name))))
  }

  ghost predicate SetsQuantity(t: Database, shelf: map<int, Shelf>, n: string, name: string, q: int,
                         r: Reply, t': Database, shelf': map<int, Shelf>, fault: bool)
    requires n in t.users
  {
    var uid := t.users[n].id;
    && ShelfKept(shelf, shelf')
    && ((r == Ok && 0 < q && exists c :: (
            && IsCalled(t, c, name) && q <= StockSeen(t, shelf, c)
            && t' == if uid in t.carts && c in t.carts[uid] then t.(carts := t.carts[uid := t.carts[uid][c := q]]) else t))
        || (r == Refused && t' == t && (q <= 0 || fault || forall c :: IsCalled(t, c, name) ==> StockSeen(t, shelf, c) < q)))
  }

  // ---- Orders ----

  /** Every balance moves by what the buyer pays and what each merchant sold; nothing else does. */
  ghost predicate Transfers(t: Database, users': map<string, UserRow>, n: string, bill: map<int, real>) {
    && users'.Keys == t.users.Keys
    && forall m :: m in t.users ==> (
        users'[m] == t.users[m].(balance := t.users[m].balance - (if m == n then Sum(bill) else 0.0)
          + Sum(map c | c in bill :: if c in t.commodities && t.commodities[c].merchant == m then bill[c] else 0.0)))
  }

  /** A new order with the cart's goods at the prices of the moment, the guarded stock, and an
    emptied cart. */
  ghost predicate Places(t: Database, uid: int, cart: map<int, int>, status: Status, now: int, id: int, t': Database) {
    && id == t.lastOrder + 1 && id !in t.orders && id in t'.orders
    && t' == t.(users := t'.users, commodities := t'.commodities, carts := t.carts - {uid},
        orders := t.orders[id := t'.orders[id]], lastOrder := id)
    && t'.orders[id] == OrderRow(uid, status, now, t'.orders[id].lines)
    && t'.orders[id].lines.Keys == cart.Keys
    && (forall c :: c in cart ==> (
        c in t.commodities && t'.orders[id].lines[c] == Line(cart[c], t.commodities[c].basePrice * t.commodities[c].discount)))
    && t'.commodities.Keys == t.commodities.Keys
    && (forall c :: c in t.commodities ==> (
        t'.commodities[c] == t.commodities[c].(storage :=
          t.commodities[c].storage - if c in cart && cart[c] <= t.commodities[c].storage then cart[c] else 0)))
  }

  /** The cached stock of what is in the cart falls by the quantities there. */
  ghost predicate Lowers(t: Database, shelf: map<int, Shelf>, cart: map<int, int>, shelf': map<int, Shelf>) {
    && (forall c :: c in cart && c in t.commodities ==> c in shelf' && shelf'[c].storage == StockSeen(t, shelf, c) - cart[c])
    && (forall c :: c in shelf && c !in cart ==> c in shelf' && shelf'[c] == shelf[c])
  }

  ghost predicate ChecksOut(t: Database, shelf: map<int, Shelf>, n: string, pay: bool, now: int, r: CheckoutResult,
                            t': Database, shelf': map<int, Shelf>, fault: bool)
    requires n in t.users
  {
    var uid := t.users[n].id;
    var cart: map<int, int> := if uid in t.carts then t.carts[uid] else map[];
    var stocked := forall c :: c in cart && c in t.commodities ==> cart[c] <= StockSeen(t, shelf, c);
    var bill: map<int, real> := map c | c in cart && c in t.commodities ::
      t.commodities[c].basePrice * t.commodities[c].discount * cart[c] as real;
    match r
    case EmptyCart => cart.Keys == {} && t' == t && ShelfKept(shelf, shelf')
    case OutOfStock => cart.Keys != {} && !stocked && t' == t && ShelfKept(shelf, shelf')
    case SqlFault => fault && cart.Keys != {} && stocked && t' == t && ShelfKept(shelf, shelf')
    case NoUser => false
    case NoFunds =>
      && pay && cart.Keys != {} && stocked && !(0.0 < Sum(bill) <= t.users[n].balance)
      && t' == t && Lowers(t, shelf, cart, shelf')
    case Placed(id) =>
      && cart.Keys != {} && stocked && Lowers(t, shelf, cart, shelf')
      && Places(t, uid, cart, if pay then Paid else Pending, now, id, t')
      && if pay then 0.0 < Sum(bill) <= t.users[n].balance && Transfers(t, t'.users, n, bill) else t'.users == t.users
  }

  ghost predicate PaysOrder(t: Database, n: string, o: int, r: PayResult, t': Database)
    requires n in t.users
  {
    if o !in t.orders || t.orders[o].userId != t.users[n].id then r == NoOrder && t' == t
    else if t.orders[o].status != Pending then r == WrongStatus && t' == t
    else
      var lines := t.orders[o].lines;
      var bill: map<int, real> := map c | c in lines :: lines[c].unitPrice * lines[c].quantity as real;
      if 0.0 < Sum(bill) <= t.users[n].balance then
        && r == Settlement && Transfers(t, t'.users, n, bill)
        && t' == t.(users := t'.users, orders := t.orders[o := t.orders[o].(status := Paid)])
      else r == Declined && t' == t
  }

  /** Only the owner's PENDING order; its goods go back, once. */
  ghost predicate CancelsOrder(t: Database, shelf: map<int, Shelf>, n: string, o: int, r: Reply, t': Database, shelf': map<int, Shelf>)
    requires n in t.users
  {
    if o in t.orders && t.orders[o].userId == t.users[n].id && t.orders[o].status == Pending then
      var lines := t.orders[o].lines;
      && r == Ok
      && t' == t.(commodities := t'.commodities, orders := t.orders[o := t.orders[o].(status := Cancelled)])
      && t'.commodities.Keys == t.commodities.Keys
      && (forall c :: c in t.commodities ==> (
          t'.commodities[c] == t.commodities[c].(storage :=
            t.commodities[c].storage + if c in lines then lines[c].quantity else 0)))
      && (forall c :: c in shelf ==> (
          c in shelf' && shelf'[c] == shelf[c].(storage := shelf[c].storage + if c in lines then lines[c].quantity else 0)))
    else r == Refused && t' == t && shelf' == shelf
  }

  /** Exactly the PENDING orders created before the cut-off are cancelled and counted, and what
    they held goes back to the rows. */
  ghost predicate Expires(t: Database, cutoff: int, count: int, t': Database) {
    && count == |set o | o in t.orders && t.orders[o].status == Pending && t.orders[o].createdAt < cutoff|
    && t' == t.(commodities := t'.commodities, orders := t'.orders)
    && t'.orders.Keys == t.orders.Keys
    && (forall o :: o in t.orders ==> (
        if t.orders[o].status == Pending && t.orders[o].createdAt < cutoff
        then t'.orders[o] == t.orders[o].(status := Cancelled) else t'.orders[o] == t.orders[o]))
    && t'.commodities.Keys == t.commodities.Keys
    && (forall c :: c in t.commodities ==> (
        t'.commodities[c] == t.commodities[c].(storage := t.commodities[c].storage
          + Count(map o | o in t.orders && t.orders[o].status == Pending && t.orders[o].createdAt < cutoff ::
              if c in t.orders[o].lines then t.orders[o].lines[c].quantity else 0))))
  }

  // ---- The operations do just that ----

  lemma {:induction false} RegisterEffect(s: State, kind: UserKind, n: string, secret: string, r: Reply, s': State, fault: bool)
    requires Answers(s, Register(kind, n, secret), r, s', fault)
    ensures Registers(s.db, kind, n, secret, r, s'.db, fault)
  {
  }

  lemma {:induction false} AccountEffect(s: State, n: string, op: Op, r: Reply, s': State, fault: bool)
    requires BooksFine(s) && n in s.purse && n in s.db.users && Operates(s, n, op, r, s', fault)
    requires op.RechargeOp? || op.PasswordOp?
    ensures s'.shelf == s.shelf
    ensures op.RechargeOp? ==> Recharges(s.db, n, op.amount, r, s'.db)
    ensures op.PasswordOp? ==> SetsPassword(s.db, n, op.secret, r, s'.db)
  {
  }

  lemma {:induction false} NewGoodEffect(s: State, n: string, op: Op, r: Reply, s': State, fault: bool)
    requires BooksFine(s) && n in s.purse && n in s.db.users && Operates(s, n, op, r, s', fault) && op.AddCommodityOp?
    ensures AddsGood(s.db, s.shelf, n, op.kind, op.name, op.price, op.stock, r, s'.db, s'.shelf, fault)
  {
    assert s.db.lastCommodity + 1 !in s.db.commodities;
  }

  /** The name is UNIQUE: a look-up finds the one row of that name, or there is none. */
  lemma {:induction false} FoundByName(t: Database, name: string)
    requires CommoditiesSound(t.commodities, t.lastCommodity)
    ensures Named(t, name).Some? ==> IsCalled(t, Named(t, name).value, name)
    ensures forall c :: IsCalled(t, c, name) ==> Named(t, name) == Some(c)
  {
  }

  lemma {:induction false} LoadedKept(s: State, name: string)
    ensures LoadNamed(s, name).db == s.db && ShelfKept(s.shelf, LoadNamed(s, name).shelf)
  {
  }

  lemma {:induction false} ColumnEffect(s: State, c: int, change: Change)
    requires c in s.db.commodities
    ensures var (s', ok) := Update(LoadShelves(s, {c}), c, change);
      && (ok <==> Sensible(change))
      && (ok ==> SetsColumn(s.db, s.shelf, c, change, s'.db, s'.shelf))
      && (!ok ==> s' == LoadShelves(s, {c}))
  {
    var row := s.db.commodities[c];
    assert LoadShelves(s, {c}).shelf == s.shelf[c := if c in s.shelf then s.shelf[c] else Shelf(row.basePrice, row.discount, row.storage)];
  }

  lemma {:induction false} ModifyEffect(s: State, n: string, op: Op, r: Reply, s': State, fault: bool)
    requires BooksFine(s) && n in s.purse && n in s.db.users && Operates(s, n, op, r, s', fault) && op.ModifyOp?
    ensures SetsGood(s.db, s.shelf, n, op.name, op.change, r, s'.db, s'.shelf, fault)
  {
    FoundByName(s.db, op.name);
    LoadedKept(s, op.name);
    if Named(s.db, op.name).Some? {
      var c := Named(s.db, op.name).value;
      ColumnEffect(s, c, op.change);
      assert IsOffered(s.db, c, n, op.name) <==> s.db.commodities[c].merchant == n;
    }
  }

  lemma {:induction false} BatchEffect(s: State, n: string, kind: string, d: real)
    requires s.shelf.Keys <= s.db.commodities.Keys && 0.0 <= d <= 1.0
    ensures var (s', count) := BatchDiscount(s, n, kind, d);
      Discounts(s.db, s.shelf, n, kind, d, count, s'.db, s'.shelf) && 0 <= count
  {
    assert Matching(s.db, n, kind)
      == set c | c in s.db.commodities && s.db.commodities[c].merchant == n && s.db.commodities[c].kind == kind;
  }

  lemma {:induction false} DiscountEffect(s: State, n: string, op: Op, r: Reply, s': State, fault: bool)
    requires BooksFine(s) && n in s.purse && n in s.db.users && Operates(s, n, op, r, s', fault) && op.BatchDiscountOp?
    ensures DiscountsKind(s.db, s.shelf, n, op.kind, op.discount, r, s'.db, s'.shelf, fault)
  {
    var d := op.discount;
    if 0.0 <= d <= 1.0 { BatchEffect(s, n, op.kind, d); }
  }

  lemma {:induction false} AddItemEffect(s: State, n: string, op: Op, r: Reply, s': State, fault: bool)
    requires BooksFine(s) && n in s.purse && n in s.db.users && Operates(s, n, op, r, s', fault) && op.AddItemOp?
    ensures AddsItem(s.db, s.shelf, n, op.name, op.quantity, r, s'.db, s'.shelf, fault)
  {
    FoundByName(s.db, op.name);
    LoadedKept(s, op.name);
  }

  lemma {:induction false} RemoveItemEffect(s: State, n: string, op: Op, r: Reply, s': State, fault: bool)
    requires BooksFine(s) && n in s.purse && n in s.db.users && Operates(s, n, op, r, s', fault) && op.RemoveItemOp?
    ensures RemovesItem(s.db, s.shelf, n, op.name, r, s'.db, s'.shelf, fault)
  {
    FoundByName(s.db, op.name);
    LoadedKept(s, op.name);
  }

  lemma {:induction false} SetQuantityEffect(s: State, n: string, op: Op, r: Reply, s': State, fault: bool)
    requires BooksFine(s) && n in s.purse && n in s.db.users && Operates(s, n, op, r, s', fault) && op.SetQuantityOp?
    ensures SetsQuantity(s.db, s.shelf, n, op.name, op.quantity, r, s'.db, s'.shelf, fault)
  {
    FoundByName(s.db, op.name);
    LoadedKept(s, op.name);
  }

  // ---- Payment ----

  /** The one who asks is cached, so the buyer that is found is who asks. */
  lemma {:induction false} AskerPays(s: State, n: string, lines: map<int, Line>)
    requires BooksFine(s) && n in s.purse && n in s.db.users
    ensures Found(s, s.db.users[n].id, n)
    ensures CanPay(s, s.db.users[n].id, lines) <==> 0.0 < Total(lines) <= s.db.users[n].balance
  {
    assert Found(s, s.db.users[n].id, n) && BalanceOf(s, n) == s.db.users[n].balance;
    assert forall m :: Found(s, s.db.users[n].id, m) ==> m == n;
  }

  lemma {:induction false} SoldIs(t: Database, bill: map<int, real>, m: string)
    ensures Sales(Owners(t), bill, m)
      == Sum(map c | c in bill :: if c in t.commodities && t.commodities[c].merchant == m then bill[c] else 0.0)
  {
    var sold: map<int, real> := map c | c in bill :: if c in t.commodities && t.commodities[c].merchant == m then bill[c] else 0.0;
    assert SalesLines(Owners(t), bill, m) == sold;
  }

  lemma {:induction false} OnlyBalances(s: State, uid: int, lines: map<int, Line>, how: Split, m: string)
    requires m in s.db.users
    ensures var users' := Charge(s, uid, lines, how).db.users;
      m in users' && users'[m] == s.db.users[m].(balance := users'[m].balance)
  {
  }

  lemma {:induction false} TransfersOne(s: State, n: string, lines: map<int, Line>, how: Split, bill: map<int, real>, m: string)
    requires BooksFine(s) && n in s.db.users && LinesFine(lines) && CanPay(s, s.db.users[n].id, lines) && bill == Amounts(lines)
    requires m in s.db.users
    ensures var users' := Charge(s, s.db.users[n].id, lines, how).db.users;
      m in users' && users'[m] == s.db.users[m].(balance := s.db.users[m].balance - (if m == n then Sum(bill) else 0.0)
        + Sum(map c | c in bill :: if c in s.db.commodities && s.db.commodities[c].merchant == m then bill[c] else 0.0))
  {
    AmountsNonneg(lines);
    OnlyBalances(s, s.db.users[n].id, lines, how, m);
    ChargeBalance(s, s.db.users[n].id, lines, how, m);
    SoldIs(s.db, bill, m);
  }

  lemma {:induction false} ChargeTransfers(s: State, n: string, lines: map<int, Line>, how: Split, bill: map<int, real>)
    requires BooksFine(s) && n in s.db.users && LinesFine(lines) && CanPay(s, s.db.users[n].id, lines) && bill == Amounts(lines)
    ensures Transfers(s.db, Charge(s, s.db.users[n].id, lines, how).db.users, n, bill)
  {
    ChargeKeys(s, s.db.users[n].id, lines, how);
    forall m | m in s.db.users { TransfersOne(s, n, lines, how, bill, m); }
  }

  lemma {:induction false} BillIs(lines: map<int, Line>, bill: map<int, real>)
    requires bill == map c | c in lines :: lines[c].unitPrice * lines[c].quantity as real
    ensures bill == Amounts(lines)
  {
    forall c | c in lines ensures bill[c] == Amounts(lines)[c] {
      assert Amount(lines[c]) == lines[c].unitPrice * lines[c].quantity as real;
    }
  }

  lemma {:induction false} PayEffect(s: State, n: string, op: Op, r: Reply, s': State, fault: bool)
    requires BooksFine(s) && n in s.purse && n in s.db.users && Operates(s, n, op, r, s', fault) && op.PayOp?
    ensures r.Payment? && PaysOrder(s.db, n, op.order, r.payment, s'.db) && s'.shelf == s.shelf
  {
    var o, uid := op.order, s.db.users[n].id;
    if o in s.db.orders && s.db.orders[o].userId == uid && s.db.orders[o].status == Pending {
      var lines := s.db.orders[o].lines;
      var bill: map<int, real> := map c | c in lines :: lines[c].unitPrice * lines[c].quantity as real;
      BillIs(lines, bill);
      AskerPays(s, n, lines);
      if CanPay(s, uid, lines) {
        ChargeTransfers(s, n, lines, Grouped, bill);
        SettledTables(s, Grouped, uid, lines, o);
      }
    }
  }

  // ---- Cancelling ----

  lemma {:induction false} CancelEffect(s: State, n: string, op: Op, r: Reply, s': State, fault: bool)
    requires BooksFine(s) && n in s.purse && n in s.db.users && Operates(s, n, op, r, s', fault) && op.CancelOp?
    ensures CancelsOrder(s.db, s.shelf, n, op.order, r, s'.db, s'.shelf)
  {
  }

  lemma {:induction false} RestockIs(orders: map<int, OrderRow>, gone: set<int>, cutoff: int, c: int)
    requires gone == set o | o in orders && orders[o].status == Pending && orders[o].createdAt < cutoff
    ensures Cancelling.Restock(orders, gone, c)
      == Count(map o | o in orders && orders[o].status == Pending && orders[o].createdAt < cutoff ::
          if c in orders[o].lines then orders[o].lines[c].quantity else 0)
  {
    var held: map<int, int> := map o | o in orders && orders[o].status == Pending && orders[o].createdAt < cutoff ::
      if c in orders[o].lines then orders[o].lines[c].quantity else 0;
    var back := Only(Cancelling.Ordered(orders, c), gone);
    assert back.Keys == gone == held.Keys;
    forall o | o in gone ensures back[o] == held[o] {}
    assert back == held;
  }

  lemma {:induction false} SweptRow(s: State, cutoff: int, c: int)
    requires c in s.db.commodities
    ensures var t, rows := s.db, Cancelling.Swept(s, Expired(s.db, cutoff)).db.commodities;
      c in rows && rows[c] == t.commodities[c].(storage := t.commodities[c].storage
        + Count(map o | o in t.orders && t.orders[o].status == Pending && t.orders[o].createdAt < cutoff ::
            if c in t.orders[o].lines then t.orders[o].lines[c].quantity else 0))
  {
    RestockIs(s.db.orders, Expired(s.db, cutoff), cutoff, c);
  }

  lemma {:induction false} SweptIs(s: State, cutoff: int, count: int)
    requires count == |Expired(s.db, cutoff)|
    ensures Expires(s.db, cutoff, count, Cancelling.Swept(s, Expired(s.db, cutoff)).db)
  {
    var t := s.db;
    assert Expired(t, cutoff) == set o | o in t.orders && t.orders[o].status == Pending && t.orders[o].createdAt < cutoff;
    forall c | c in t.commodities { SweptRow(s, cutoff, c); }
  }

  lemma {:induction false} ExpireEffect(s: State, cutoff: int, count: int, s': State)
    requires BooksFine(s) && Sweep(s, cutoff, count, s')
    ensures Expires(s.db, cutoff, count, s'.db)
  {
    var ids: seq<int> :| Enumerates(ids, Expired(s.db, cutoff)) && count == |ids| && s' == CancelAll(s, ids);
    EnumeratesSize(ids, Expired(s.db, cutoff));
    SweepTwin(s, cutoff, count, s');
    SweptIs(Full(s), cutoff, count);
  }

  /** And the cache gets the same quantities back, when the goods of open orders are cached. */
  lemma {:induction false} ExpireCacheEffect(s: State, cutoff: int, count: int, s': State, c: int)
    requires Inv(s) && Sweep(s, cutoff, count, s') && c in s.shelf
    ensures c in s'.shelf && s'.shelf[c] == s.shelf[c].(storage := s.shelf[c].storage
      + Count(map o | o in s.db.orders && s.db.orders[o].status == Pending && s.db.orders[o].createdAt < cutoff ::
          if c in s.db.orders[o].lines then s.db.orders[o].lines[c].quantity else 0))
  {
    Cancelling.SweepExact(s, cutoff, count, s');
    RestockIs(s.db.orders, Expired(s.db, cutoff), cutoff, c);
  }

  // ---- Checkout ----

  /** The lines a cart would get, and their amounts, written out. */
  lemma {:induction false} CartIs(t: Database, uid: int, cart: map<int, int>, bill: map<int, real>)
    requires TablesFine(t) && cart == (if uid in t.carts then t.carts[uid] else map[])
    requires bill == map c | c in cart && c in t.commodities :: t.commodities[c].basePrice * t.commodities[c].discount * cart[c] as real
    ensures cart.Keys <= t.commodities.Keys && CartLines(t, uid).Keys == cart.Keys && Amounts(CartLines(t, uid)) == bill
    ensures forall c :: c in cart ==> CartLines(t, uid)[c] == Line(cart[c], t.commodities[c].basePrice * t.commodities[c].discount)
    ensures LinesFine(CartLines(t, uid))
  {
    CartLinesFine(State(t, map[], map[]), uid);
    assert CartOf(t, uid) == cart;
    var lines := CartLines(t, uid);
    forall c | c in cart
      ensures lines[c] == Line(cart[c], t.commodities[c].basePrice * t.commodities[c].discount)
      ensures Amounts(lines)[c] == bill[c]
    {
      assert Amount(lines[c]) == t.commodities[c].basePrice * t.commodities[c].discount * cart[c] as real;
    }
    assert Amounts(lines) == bill;
  }

  lemma {:induction false} StockedIs(s: State, lines: map<int, Line>, cart: map<int, int>)
    requires lines.Keys == cart.Keys <= s.db.commodities.Keys && forall c :: c in cart ==> lines[c].quantity == cart[c]
    ensures WellStocked(s, lines) <==> forall c :: c in cart && c in s.db.commodities ==> cart[c] <= StockSeen(s.db, s.shelf, c)
    ensures Lowers(s.db, s.shelf, cart, Lowered(s, lines))
  {
  }

  lemma {:induction false} PlacesIs(s: State, uid: int, now: int, cart: map<int, int>)
    requires BooksFine(s) && cart == (if uid in s.db.carts then s.db.carts[uid] else map[])
    ensures Places(s.db, uid, cart, Pending, now, s.db.lastOrder + 1, PlaceOrder(s, uid, now).db)
  {
    var bill: map<int, real> := map c | c in cart && c in s.db.commodities ::
      s.db.commodities[c].basePrice * s.db.commodities[c].discount * cart[c] as real;
    CartIs(s.db, uid, cart, bill);
    PlacedOrder(s, uid, now);
  }

  /** Who sells what is not changed by taking stock. */
  lemma {:induction false} TransfersOver(t: Database, t': Database, users': map<string, UserRow>, n: string, bill: map<int, real>)
    requires Transfers(t', users', n, bill) && t'.users == t.users && SameGoods(t.commodities, t'.commodities)
    ensures Transfers(t, users', n, bill)
  {
    forall m | m in t.users
      ensures Sum(map c | c in bill :: if c in t'.commodities && t'.commodities[c].merchant == m then bill[c] else 0.0)
        == Sum(map c | c in bill :: if c in t.commodities && t.commodities[c].merchant == m then bill[c] else 0.0)
    {
      SoldIs(t, bill, m);
      SoldIs(t', bill, m);
      OwnersStay(t, t');
    }
  }

  lemma {:induction false} PaidPlacesIs(s: State, uid: int, now: int, cart: map<int, int>, how: Split)
    requires BooksFine(s) && cart == (if uid in s.db.carts then s.db.carts[uid] else map[])
    ensures var placed, id := PlaceOrder(s, uid, now), s.db.lastOrder + 1;
      Places(s.db, uid, cart, Paid, now, id, Mark(Charge(placed, uid, CartLines(s.db, uid), how), id, Paid).db)
  {
    PlacesIs(s, uid, now, cart);
    PlacedOrder(s, uid, now);
    SettledTables(PlaceOrder(s, uid, now), how, uid, CartLines(s.db, uid), s.db.lastOrder + 1);
  }

  lemma {:induction false} PlacedGoods(s: State, uid: int, now: int)
    ensures var t' := PlaceOrder(s, uid, now).db; t'.users == s.db.users && SameGoods(s.db.commodities, t'.commodities)
  {
  }

  lemma {:induction false} PaidNowTransfers(s: State, n: string, now: int, bill: map<int, real>)
    requires BooksFine(s) && n in s.db.users && CanPay(s, s.db.users[n].id, CartLines(s.db, s.db.users[n].id))
    requires bill == Amounts(CartLines(s.db, s.db.users[n].id))
    ensures var uid, placed := s.db.users[n].id, PlaceOrder(s, s.db.users[n].id, now);
      Transfers(s.db, Charge(placed, uid, CartLines(s.db, uid), PerLine).db.users, n, bill)
  {
    var uid, placed := s.db.users[n].id, PlaceOrder(s, s.db.users[n].id, now);
    PlaceOrderFine(s, uid, now);
    PlacedPays(s, uid, now);
    CartLinesFine(s, uid);
    ChargeTransfers(placed, n, CartLines(s.db, uid), PerLine, bill);
    PlacedGoods(s, uid, now);
    TransfersOver(s.db, placed.db, Charge(placed, uid, CartLines(s.db, uid), PerLine).db.users, n, bill);
  }

  lemma {:induction false} PlacedEffect(s: State, n: string, pay: bool, now: int, id: int, s': State,
                                        cart: map<int, int>, bill: map<int, real>)
    requires BooksFine(s) && n in s.purse && n in s.db.users && Checkout(s, s.db.users[n].id, pay, now, Placed(id), s')
    requires cart == (if s.db.users[n].id in s.db.carts then s.db.carts[s.db.users[n].id] else map[])
    requires bill == Amounts(CartLines(s.db, s.db.users[n].id))
    ensures Places(s.db, s.db.users[n].id, cart, if pay then Paid else Pending, now, id, s'.db)
    ensures s'.shelf == Lowered(s, CartLines(s.db, s.db.users[n].id))
    ensures if pay then Transfers(s.db, s'.db.users, n, bill) else s'.db.users == s.db.users
  {
    if pay {
      PaidPlacesIs(s, s.db.users[n].id, now, cart, PerLine);
      PaidNowTransfers(s, n, now, bill);
      PlacedOrder(s, s.db.users[n].id, now);
      SettledTables(PlaceOrder(s, s.db.users[n].id, now), PerLine, s.db.users[n].id, CartLines(s.db, s.db.users[n].id), id);
    } else {
      PlacesIs(s, s.db.users[n].id, now, cart);
    }
  }

  /** The cart and the bill as `ChecksOut` has them, and what they decide. */
  ghost predicate Reckoned(s: State, n: string, cart: map<int, int>, bill: map<int, real>)
    requires n in s.db.users
  {
    var uid := s.db.users[n].id;
    var lines := CartLines(s.db, uid);
    && lines.Keys == cart.Keys && bill == Amounts(lines)
    && (WellStocked(s, lines) <==> forall c :: c in cart && c in s.db.commodities ==> cart[c] <= StockSeen(s.db, s.shelf, c))
    && (CanPay(s, uid, lines) <==> 0.0 < Sum(bill) <= s.db.users[n].balance)
    && Found(s, uid, n) && Lowers(s.db, s.shelf, cart, Lowered(s, lines))
  }

  lemma {:induction false} Reckoning(s: State, n: string, cart: map<int, int>, bill: map<int, real>)
    requires BooksFine(s) && n in s.purse && n in s.db.users
    requires cart == (if s.db.users[n].id in s.db.carts then s.db.carts[s.db.users[n].id] else map[])
    requires bill == map c | c in cart && c in s.db.commodities ::
      s.db.commodities[c].basePrice * s.db.commodities[c].discount * cart[c] as real
    ensures Reckoned(s, n, cart, bill)
  {
    var lines := CartLines(s.db, s.db.users[n].id);
    CartIs(s.db, s.db.users[n].id, cart, bill);
    StockedIs(s, lines, cart);
    AskerPays(s, n, lines);
  }

  lemma {:induction false} RefusedEffect(s: State, n: string, pay: bool, now: int, r: CheckoutResult, s': State, fault: bool,
                                         cart: map<int, int>, bill: map<int, real>)
    requires n in s.db.users && Checkout(s, s.db.users[n].id, pay, now, r, s') && (r == SqlFault ==> fault) && !r.Placed?
    requires cart == (if s.db.users[n].id in s.db.carts then s.db.carts[s.db.users[n].id] else map[])
    requires bill == map c | c in cart && c in s.db.commodities ::
      s.db.commodities[c].basePrice * s.db.commodities[c].discount * cart[c] as real
    requires Reckoned(s, n, cart, bill)
    ensures ChecksOut(s.db, s.shelf, n, pay, now, r, s'.db, s'.shelf, fault)
  {
    assert s'.db == s.db;
  }

  lemma {:induction false} CheckedOut(s: State, n: string, pay: bool, now: int, r: CheckoutResult, s': State, fault: bool)
    requires BooksFine(s) && n in s.purse && n in s.db.users
    requires Checkout(s, s.db.users[n].id, pay, now, r, s') && (r == SqlFault ==> fault)
    ensures ChecksOut(s.db, s.shelf, n, pay, now, r, s'.db, s'.shelf, fault)
  {
    var t, uid := s.db, s.db.users[n].id;
    var cart: map<int, int> := if uid in t.carts then t.carts[uid] else map[];
    var bill: map<int, real> := map c | c in cart && c in t.commodities ::
      t.commodities[c].basePrice * t.commodities[c].discount * cart[c] as real;
    Reckoning(s, n, cart, bill);
    if r.Placed? {
      PlacedEffect(s, n, pay, now, r.id, s', cart, bill);
    } else {
      RefusedEffect(s, n, pay, now, r, s', fault, cart, bill);
    }
  }

  lemma {:induction false} CheckoutEffect(s: State, n: string, op: Op, r: Reply, s': State, fault: bool)
    requires BooksFine(s) && n in s.purse && n in s.db.users && Operates(s, n, op, r, s', fault) && op.CheckoutOp?
    ensures r.Ordered? && ChecksOut(s.db, s.shelf, n, op.pay, op.now, r.checkout, s'.db, s'.shelf, fault)
  {
    CheckedOut(s, n, op.pay, op.now, r.checkout, s', fault);
  }

  // ---- A user's request ----

  ghost predicate OpDone(t: Database, shelf: map<int, Shelf>, n: string, op: Op, r: Reply,
                         t': Database, shelf': map<int, Shelf>, fault: bool)
    requires n in t.users
  {
    match op
    case RechargeOp(_, amount) => Recharges(t, n, amount, r, t') && shelf' == shelf
    case PasswordOp(_, secret) => SetsPassword(t, n, secret, r, t') && shelf' == shelf
    case AddCommodityOp(kind, name, price, stock) => AddsGood(t, shelf, n, kind, name, price, stock, r, t', shelf', fault)
    case ModifyOp(name, change) => SetsGood(t, shelf, n, name, change, r, t', shelf', fault)
    case BatchDiscountOp(kind, d) => DiscountsKind(t, shelf, n, kind, d, r, t', shelf', fault)
    case AddItemOp(name, q) => AddsItem(t, shelf, n, name, q, r, t', shelf', fault)
    case RemoveItemOp(name) => RemovesItem(t, shelf, n, name, r, t', shelf', fault)
    case SetQuantityOp(name, q) => SetsQuantity(t, shelf, n, name, q, r, t', shelf', fault)
    case CheckoutOp(pay, now) => r.Ordered? && ChecksOut(t, shelf, n, pay, now, r.checkout, t', shelf', fault)
    case PayOp(o) => r.Payment? && PaysOrder(t, n, o, r.payment, t') && shelf' == shelf
    case CancelOp(o) => CancelsOrder(t, shelf, n, o, r, t', shelf')
  }

  lemma {:induction false} OperatesEffect(s: State, n: string, op: Op, r: Reply, s': State, fault: bool)
    requires BooksFine(s) && n in s.purse && n in s.db.users && Operates(s, n, op, r, s', fault)
    ensures OpDone(s.db, s.shelf, n, op, r, s'.db, s'.shelf, fault)
  {
    match op
    case RechargeOp(_, _) => AccountEffect(s, n, op, r, s', fault);
    case PasswordOp(_, _) => AccountEffect(s, n, op, r, s', fault);
    case AddCommodityOp(_, _, _, _) => NewGoodEffect(s, n, op, r, s', fault);
    case ModifyOp(_, _) => ModifyEffect(s, n, op, r, s', fault);
    case BatchDiscountOp(_, _) => DiscountEffect(s, n, op, r, s', fault);
    case AddItemOp(_, _) => AddItemEffect(s, n, op, r, s', fault);
    case RemoveItemOp(_) => RemoveItemEffect(s, n, op, r, s', fault);
    case SetQuantityOp(_, _) => SetQuantityEffect(s, n, op, r, s', fault);
    case CheckoutOp(_, _) => CheckoutEffect(s, n, op, r, s', fault);
    case PayOp(_) => PayEffect(s, n, op, r, s', fault);
    case CancelOp(_) => CancelEffect(s, n, op, r, s', fault);
  }

  /** Whoever is not known, or not of the type, changes nothing. */
  ghost predicate TurnedAway(t: Database, shelf: map<int, Shelf>, n: string, kind: UserKind, r: Reply,
                             t': Database, shelf': map<int, Shelf>) {
    !IsKind(t, n, kind) && r == Refused && t' == t && shelf' == shelf
  }

  /** A user's request, from wherever the run started, does to rows and cached objects what its
    operation says, and nothing for a user of the other type. */
  lemma {:induction false} UserEffect(s: State, n: string, op: Op, r: Reply, s': State, fault: bool)
    requires BooksFine(s) && Answers(s, By(n, op), r, s', fault)
    ensures TurnedAway(s.db, s.shelf, n, Role(op), r, s'.db, s'.shelf)
      || (IsKind(s.db, n, Role(op)) && OpDone(s.db, s.shelf, n, op, r, s'.db, s'.shelf, fault))
  {
    if IsKind(s.db, n, Role(op)) {
      LookedFine(s, {}, {n});
      OperatesEffect(LoadPurses(s, {n}), n, op, r, s', fault);
    }
  }

  lemma {:induction false} StepAnswers(s: State, q: Request, r: Reply, s': State)
    requires Step(s, q, r, s')
    ensures Answers(s, q, r, s', true)
  {
  }
}
