/** What holds between any two requests, and that every operation keeps it. */
module Invariants {
  import opened Tables
  import opened Shop

  /** Cached balances are the stored ones. */
  ghost predicate PursesAgree(purse: map<string, real>, users: map<string, UserRow>) {
    forall n :: n in purse ==> n in users && purse[n] == users[n].balance
  }

  ghost predicate NobodyInDebt(users: map<string, UserRow>) {
    forall n :: n in users ==> 0.0 <= users[n].balance
  }

  /** Cached prices are the stored ones; cached stock never exceeds the stored stock. */
  ghost predicate ShelvesAgree(shelf: map<int, Shelf>, rows: map<int, CommodityRow>) {
    forall c :: c in shelf ==> c in rows && ShelfFits(shelf[c], rows[c])
  }

  predicate ShelfFits(shelf: Shelf, row: CommodityRow) {
    shelf.basePrice == row.basePrice && shelf.discount == row.discount && 0 <= shelf.storage <= row.storage
  }

  ghost predicate RowsFine(rows: map<int, CommodityRow>, names: set<string>) {
    forall c :: c in rows ==> RowFine(rows[c], names)
  }

  /** Price, discount and stock are not negative, and the merchant has an account. */
  predicate RowFine(row: CommodityRow, names: set<string>) {
    0.0 <= row.basePrice && 0.0 <= row.discount && 0 <= row.storage && row.merchant in names
  }

  ghost predicate CartsFine(carts: map<int, map<int, int>>) {
    forall u :: u in carts ==> CartFine(carts[u])
  }

  ghost predicate CartFine(cart: map<int, int>) {
    forall c :: c in cart ==> 0 < cart[c]
  }

  /** A line as `checkout` writes it: something is bought, at a price that is not negative. */
  ghost predicate LinesFine(lines: map<int, Line>) {
    forall c :: c in lines ==> 0 < lines[c].quantity && 0.0 <= lines[c].unitPrice
  }

  ghost predicate OrdersFine(orders: map<int, OrderRow>, lastUser: int) {
    forall o :: o in orders ==> LinesFine(orders[o].lines) && 1 <= orders[o].userId <= lastUser
  }

  /** Every commodity on a PENDING order is cached, which is what cancelling relies on. */
  ghost predicate PendingCached(orders: map<int, OrderRow>, cached: set<int>) {
    forall o :: o in orders && orders[o].status == Pending ==> orders[o].lines.Keys <= cached
  }

  /** The part of the invariant that speaks of the tables alone. */
  ghost predicate TablesFine(t: Database) {
    && Sound(t) && NobodyInDebt(t.users)
    && RowsFine(t.commodities, t.users.Keys) && CartsFine(t.carts) && OrdersFine(t.orders, t.lastUser)
  }

  ghost predicate Inv(s: State) {
    && TablesFine(s.db)
    && PursesAgree(s.purse, s.db.users)
    && ShelvesAgree(s.shelf, s.db.commodities)
    && PendingCached(s.db.orders, s.shelf.Keys)
  }

  /** What the accounts need: nothing about cached stock, nor about what is cached. */
  ghost predicate BooksFine(s: State) {
    TablesFine(s.db) && PursesAgree(s.purse, s.db.users) && s.shelf.Keys <= s.db.commodities.Keys
  }

  /** A start state: the tables as an earlier process left them, the caches empty. */
  ghost predicate Initial(s: State) {
    s.shelf.Keys == {} && s.purse.Keys == {} && TablesFine(s.db)
  }

  /** No order was left PENDING, which is what the cached stock needs of a start state. */
  ghost predicate NoneOpen(t: Database) {
    forall o :: o in t.orders ==> t.orders[o].status != Pending
  }

  lemma {:induction false} InitialInv(s: State)
    requires Initial(s)
    ensures BooksFine(s)
    ensures NoneOpen(s.db) ==> Inv(s)
  {
  }

  lemma {:induction false} InvBooks(s: State)
    requires Inv(s)
    ensures BooksFine(s)
  {
    forall c | c in s.shelf.Keys ensures c in s.db.commodities.Keys { assert c in s.shelf; }
  }

  /** The same tables and balances with every row on the shelf. */
  function Full(s: State): State {
    s.(shelf := map c | c in s.db.commodities :: FromRow(s.db.commodities[c]))
  }

  lemma {:induction false} FullInv(s: State)
    requires BooksFine(s)
    ensures Inv(Full(s))
  {
    forall c | c in s.db.commodities ensures ShelfFits(Full(s).shelf[c], s.db.commodities[c]) {
      assert RowFine(s.db.commodities[c], s.db.users.Keys);
    }
    forall o | o in s.db.orders ensures s.db.orders[o].lines.Keys <= Full(s).shelf.Keys {}
  }

  /** Same tables, same cached balances; the shelves may differ. */
  ghost predicate Twins(s: State, t: State) {
    s.db == t.db && s.purse == t.purse
  }

  lemma {:induction false} TwinFine(s: State, t: State)
    requires Inv(t) && Twins(s, t) && s.shelf.Keys <= s.db.commodities.Keys
    ensures BooksFine(s)
  {
  }

  lemma {:induction false} InvValid(s: State)
    requires Inv(s)
    ensures Valid(s)
  {
    forall c | c in s.shelf ensures c in s.db.commodities { assert c in s.shelf.Keys; }
    forall n | n in s.purse ensures n in s.db.users { assert n in s.purse.Keys; }
  }

  // ---- Two frames: a change of balances, a change of stock and prices ----

  ghost predicate SamePeople(users: map<string, UserRow>, users': map<string, UserRow>) {
    users'.Keys == users.Keys && forall n :: n in users ==> users'[n].id == users[n].id && users'[n].kind == users[n].kind
  }

  lemma {:induction false} UsersChange(t: Database, users': map<string, UserRow>)
    requires TablesFine(t) && SamePeople(t.users, users') && NobodyInDebt(users')
    ensures TablesFine(t.(users := users'))
  {
  }

  lemma {:induction false} BalancesChange(s: State, users': map<string, UserRow>, purse': map<string, real>)
    requires Inv(s) && SamePeople(s.db.users, users') && PursesAgree(purse', users') && NobodyInDebt(users')
    ensures Inv(State(s.db.(users := users'), s.shelf, purse'))
  {
    UsersChange(s.db, users');
  }

  /** Names and merchants are never updated. */
  ghost predicate SameGoods(rows: map<int, CommodityRow>, rows': map<int, CommodityRow>) {
    && rows'.Keys == rows.Keys
    && forall c :: c in rows ==>
      rows'[c].name == rows[c].name && rows'[c].merchant == rows[c].merchant && rows'[c].kind == rows[c].kind
  }

  lemma {:induction false} StockChange(s: State, rows': map<int, CommodityRow>, shelf': map<int, Shelf>)
    requires Inv(s) && SameGoods(s.db.commodities, rows') && RowsFine(rows', s.db.users.Keys)
    requires ShelvesAgree(shelf', rows') && s.shelf.Keys <= shelf'.Keys
    ensures Inv(State(s.db.(commodities := rows'), shelf', s.purse))
  {
  }

  // ---- Every operation keeps the invariant ----

  lemma {:induction false} LoadShelvesInv(s: State, ids: set<int>)
    requires Inv(s)
    ensures Inv(LoadShelves(s, ids))
  {
  }

  lemma {:induction false} LoadPursesInv(s: State, names: set<string>)
    requires Inv(s)
    ensures Inv(LoadPurses(s, names))
  {
  }

  lemma {:induction false} NewUserTables(t: Database, n: string, row: UserRow)
    requires TablesFine(t) && n !in t.users && row.id == t.lastUser + 1 && 0.0 <= row.balance
    ensures TablesFine(t.(users := t.users[n := row], lastUser := t.lastUser + 1))
  {
    NewUserSound(t.users, t.lastUser, n, row);
    forall c | c in t.commodities ensures RowFine(t.commodities[c], t.users[n := row].Keys) {
      assert RowFine(t.commodities[c], t.users.Keys);
    }
  }

  lemma {:induction false} NewUserFine(s: State, kind: UserKind, n: string, secret: string)
    requires BooksFine(s)
    ensures BooksFine(RegisterUser(s, kind, n, secret).0)
  {
    if n !in s.db.users { NewUserTables(s.db, n, UserRow(s.db.lastUser + 1, kind, 0.0, secret)); }
  }

  lemma {:induction false} RegisterInv(s: State, kind: UserKind, n: string, secret: string)
    requires Inv(s)
    ensures Inv(RegisterUser(s, kind, n, secret).0)
  {
    InvBooks(s);
    NewUserFine(s, kind, n, secret);
  }

  lemma {:induction false} RechargeInv(s: State, n: string, amount: real)
    requires Inv(s) && n in s.purse
    ensures Inv(Recharge(s, n, amount).0)
  {
    var s' := Recharge(s, n, amount).0;
    assert PursesAgree(s'.purse, s'.db.users) && NobodyInDebt(s'.db.users);
    BalancesChange(s, s'.db.users, s'.purse);
  }

  lemma {:induction false} PasswordInv(s: State, n: string, secret: Option<string>)
    requires Inv(s) && n in s.db.users
    ensures Inv(SetPassword(s, n, secret).0)
  {
    BalancesChange(s, SetPassword(s, n, secret).0.db.users, s.purse);
  }

  lemma {:induction false} NewRow(rows: map<int, CommodityRow>, last: int, row: CommodityRow, names: set<string>)
    requires CommoditiesSound(rows, last) && RowsFine(rows, names) && RowFine(row, names)
    requires forall c :: c in rows ==> rows[c].name != row.name
    ensures last + 1 !in rows
    ensures CommoditiesSound(rows[last + 1 := row], last + 1) && RowsFine(rows[last + 1 := row], names)
  {
  }

  lemma {:induction false} AddCommodityInv(s: State, kind: string, name: string, merchant: string,
                                           price: real, storage: int, discount: real)
    requires Inv(s) && merchant in s.db.users && 0.0 <= price && 0 <= storage && 0.0 <= discount
    ensures Inv(AddCommodity(s, kind, name, merchant, price, storage, discount).0)
  {
    if KnownKind(kind) && Named(s.db, name).None? {
      NewRow(s.db.commodities, s.db.lastCommodity, CommodityRow(name, kind, merchant, price, discount, storage), s.db.users.Keys);
    }
  }

  lemma {:induction false} UpdateInv(s: State, c: int, change: Change)
    requires Inv(s) && c in s.shelf
    ensures Inv(Update(s, c, change).0)
  {
  }

  lemma {:induction false} BatchDiscountInv(s: State, merchant: string, kind: string, d: real)
    requires Inv(s)
    ensures Inv(BatchDiscount(s, merchant, kind, d).0)
  {
  }

  lemma {:induction false} SetCartInv(s: State, uid: int, cart: map<int, int>)
    requires Inv(s) && cart.Keys <= s.db.commodities.Keys && CartFine(cart)
    ensures Inv(SetCart(s, uid, cart))
  {
  }

  lemma {:induction false} CartLinesFine(s: State, uid: int)
    requires TablesFine(s.db)
    ensures LinesFine(CartLines(s.db, uid))
    ensures CartLines(s.db, uid).Keys == CartOf(s.db, uid).Keys
  {
  }

  lemma {:induction false} LoweredFits(s: State, lines: map<int, Line>)
    requires RowsFine(s.db.commodities, s.db.users.Keys) && ShelvesAgree(s.shelf, s.db.commodities)
    requires lines.Keys <= s.db.commodities.Keys && LinesFine(lines) && WellStocked(s, lines)
    ensures ShelvesAgree(Lowered(s, lines), s.db.commodities)
    ensures ShelvesAgree(Lowered(s, lines), Taken(s.db.commodities, lines))
    ensures RowsFine(Taken(s.db.commodities, lines), s.db.users.Keys)
    ensures forall c :: c in lines ==> lines[c].quantity <= s.db.commodities[c].storage
  {
  }

  /** A refused payment leaves the lowered stock in the cache although the tables roll back. */
  lemma {:induction false} LoweredInv(s: State, lines: map<int, Line>)
    requires Inv(s) && lines.Keys <= s.db.commodities.Keys && LinesFine(lines) && WellStocked(s, lines)
    ensures Inv(s.(shelf := Lowered(s, lines)))
  {
  }

  lemma {:induction false} TakenFine(t: Database, lines: map<int, Line>)
    requires TablesFine(t)
    ensures TablesFine(t.(commodities := Taken(t.commodities, lines)))
  {
    var rows := Taken(t.commodities, lines);
    forall c | c in rows ensures RowFine(rows[c], t.users.Keys) { assert RowFine(t.commodities[c], t.users.Keys); }
    assert rows.Keys == t.commodities.Keys;
  }

  lemma {:induction false} NewOrderFine(t: Database, uid: int, order: OrderRow)
    requires TablesFine(t) && LinesFine(order.lines) && order.lines.Keys <= t.commodities.Keys && 1 <= order.userId <= t.lastUser
    ensures TablesFine(t.(carts := t.carts - {uid}, orders := t.orders[t.lastOrder + 1 := order], lastOrder := t.lastOrder + 1))
  {
  }

  /** The tables stay fine whether or not the guards match. */
  lemma {:induction false} PlaceOrderFine(s: State, uid: int, now: int)
    requires BooksFine(s) && 1 <= uid <= s.db.lastUser
    ensures BooksFine(PlaceOrder(s, uid, now))
  {
    var lines := CartLines(s.db, uid);
    CartLinesFine(s, uid);
    TakenFine(s.db, lines);
    NewOrderFine(s.db.(commodities := Taken(s.db.commodities, lines)), uid, OrderRow(uid, Pending, now, lines));
    assert Taken(s.db.commodities, lines).Keys == s.db.commodities.Keys;
  }

  lemma {:induction false} PlaceOrderInv(s: State, uid: int, now: int)
    requires Inv(s) && 1 <= uid <= s.db.lastUser && WellStocked(s, CartLines(s.db, uid))
    ensures Inv(PlaceOrder(s, uid, now))
  {
    InvBooks(s);
    PlaceOrderFine(s, uid, now);
    CartLinesFine(s, uid);
    LoweredFits(s, CartLines(s.db, uid));
  }

  /** A status change away from PENDING asks nothing of the caches. */
  lemma {:induction false} MarkInv(s: State, o: int, status: Status)
    requires Inv(s) && o in s.db.orders && status != Pending
    ensures Inv(Mark(s, o, status))
  {
  }

  lemma {:induction false} CancelInv(s: State, o: int)
    requires Inv(s) && o in s.db.orders && s.db.orders[o].status == Pending
    ensures Inv(CancelInternal(s, o))
  {
    var lines := s.db.orders[o].lines;
    var rows', shelf' := Returned(s.db.commodities, lines), Raised(s, lines);
    assert LinesFine(lines) && lines.Keys <= s.shelf.Keys;
    forall c | c in s.db.commodities
      ensures RowFine(rows'[c], s.db.users.Keys)
      ensures c in shelf' ==> ShelfFits(shelf'[c], rows'[c])
    {
      assert RowFine(s.db.commodities[c], s.db.users.Keys);
      if c in s.shelf { assert ShelfFits(s.shelf[c], s.db.commodities[c]); }
    }
    StockChange(s, rows', shelf');
    MarkInv(State(s.db.(commodities := rows'), shelf', s.purse), o, Cancelled);
  }
}
