/** One iteration of each row-by-row loop, seen from the order-free functions of `Shop`. */
module RowByRow {
  import opened Sums
  import opened Tables
  import opened Shop
  import Payments

  lemma {:induction false} TakenStep(rows: map<int, CommodityRow>, lines: map<int, Line>, seen: set<int>, c: int)
    requires c in lines && c !in seen
    ensures Taken(Taken(rows, Only(lines, seen)), map[c := Line(lines[c].quantity, 0.0)]) == Taken(rows, Only(lines, seen + {c}))
  {
  }

  /** The tables when these lines of order `o` have been inserted and their stock taken. */
  function Written(t: Database, o: int, lines: map<int, Line>): Database
    requires o in t.orders
  {
    t.(commodities := Taken(t.commodities, lines), orders := t.orders[o := t.orders[o].(lines := lines)])
  }

  lemma {:induction false} ItemSound(t: Database, o: int, c: int, line: Line)
    requires Sound(t) && o in t.orders && c in t.commodities
    ensures Sound(t.(
      commodities := Taken(t.commodities, map[c := Line(line.quantity, 0.0)]),
      orders := t.orders[o := t.orders[o].(lines := t.orders[o].lines[c := line])]))
  {
  }

  lemma {:induction false} WrittenNone(t: Database, o: int, lines: map<int, Line>)
    requires o in t.orders && t.orders[o].lines == map[]
    ensures Written(t, o, Only(lines, {})) == t
  {
  }

  /** INSERT INTO order_items followed by the guarded stock UPDATE. */
  lemma {:induction false} WrittenStep(t: Database, o: int, lines: map<int, Line>, seen: set<int>, c: int)
    requires o in t.orders && c in lines && c !in seen
    ensures var so := Written(t, o, Only(lines, seen));
      && c !in so.orders[o].lines
      && so.(commodities := Taken(so.commodities, map[c := Line(lines[c].quantity, 0.0)]),
          orders := so.orders[o := so.orders[o].(lines := so.orders[o].lines[c := lines[c]])])
        == Written(t, o, Only(lines, seen + {c}))
  {
    TakenStep(t.commodities, lines, seen, c);
    assert Only(lines, seen)[c := lines[c]] == Only(lines, seen + {c});
  }

  lemma {:induction false} ReturnedStep(rows: map<int, CommodityRow>, lines: map<int, Line>, seen: set<int>, c: int)
    requires c in lines && c !in seen
    ensures Returned(Returned(rows, Only(lines, seen)), map[c := Line(lines[c].quantity, 0.0)])
      == Returned(rows, Only(lines, seen + {c}))
  {
  }

  /** The cache half-way through being lowered. */
  function LoweredSoFar(shelf: map<int, Shelf>, lines: map<int, Line>, seen: set<int>): map<int, Shelf> {
    map c | c in shelf ::
      if c in lines && c in seen then shelf[c].(storage := shelf[c].storage - lines[c].quantity) else shelf[c]
  }

  lemma {:induction false} LoweredStep(shelf: map<int, Shelf>, lines: map<int, Line>, seen: set<int>, c: int)
    requires c in lines && c in shelf && c !in seen
    ensures Shift(LoweredSoFar(shelf, lines, seen), c, -lines[c].quantity) == LoweredSoFar(shelf, lines, seen + {c})
  {
  }

  lemma {:induction false} LoweredAll(s: State, lines: map<int, Line>)
    requires lines.Keys <= s.db.commodities.Keys
    ensures LoweredSoFar(LoadShelves(s, lines.Keys).shelf, lines, lines.Keys) == Lowered(s, lines)
  {
  }

  lemma {:induction false} RaisedStep(s: State, lines: map<int, Line>, seen: set<int>, c: int)
    requires c in lines && c in s.db.commodities && c !in seen
    ensures var rows := Returned(s.db.commodities, Only(lines, seen + {c}));
      Shift(WithShelves(Raised(s, Only(lines, seen)), rows, {c}), c, lines[c].quantity) == Raised(s, Only(lines, seen + {c}))
  {
    var rows := Returned(s.db.commodities, Only(lines, seen + {c}));
    var a := Shift(WithShelves(Raised(s, Only(lines, seen)), rows, {c}), c, lines[c].quantity);
    var b := Raised(s, Only(lines, seen + {c}));
    assert a.Keys == b.Keys;
    forall d | d in a ensures a[d] == b[d] {}
  }

  /** The shop when these lines have been put back, and nothing else has happened. */
  function PutBack(s: State, lines: map<int, Line>): State {
    State(s.db.(commodities := Returned(s.db.commodities, lines)), Raised(s, lines), s.purse)
  }

  lemma {:induction false} PutBackNone(s: State, lines: map<int, Line>)
    ensures PutBack(s, Only(lines, {})) == s
  {
  }

  /** One order row put back: the table first, then the cached object, loaded if need be. */
  function OneBack(s: State, c: int, quantity: int): State {
    var rows := Returned(s.db.commodities, map[c := Line(quantity, 0.0)]);
    State(s.db.(commodities := rows), Shift(WithShelves(s.shelf, rows, {c}), c, quantity), s.purse)
  }

  lemma {:induction false} PutBackStep(s: State, lines: map<int, Line>, seen: set<int>, c: int)
    requires c in lines && c in s.db.commodities && c !in seen
    ensures c in PutBack(s, Only(lines, seen)).db.commodities
    ensures OneBack(PutBack(s, Only(lines, seen)), c, lines[c].quantity) == PutBack(s, Only(lines, seen + {c}))
  {
    ReturnedStep(s.db.commodities, lines, seen, c);
    RaisedStep(s, lines, seen, c);
  }

  lemma {:induction false} CancelDone(s: State, o: int)
    ensures var s1 := PutBack(s, LinesOf(s.db, o));
      State(Mark(State(s1.db, map[], map[]), o, Cancelled).db, s1.shelf, s1.purse) == CancelInternal(s, o)
  {
  }

  lemma {:induction false} CancelAllStep(s: State, ids: seq<int>, k: nat)
    requires k < |ids|
    ensures CancelAll(s, ids[..k + 1]) == CancelInternal(CancelAll(s, ids[..k]), ids[k])
  {
    assert ids[..k + 1][..k] == ids[..k];
  }

  lemma {:induction false} CancelAllEnds(s: State, ids: seq<int>)
    ensures CancelAll(s, ids[..0]) == s && CancelAll(s, ids[..|ids|]) == CancelAll(s, ids)
  {
    assert ids[..|ids|] == ids;
  }

  /** Stock is never part of what must stay. */
  lemma {:induction false} ReturnedSound(t: Database, lines: map<int, Line>)
    requires Sound(t)
    ensures Sound(t.(commodities := Returned(t.commodities, lines)))
  {
  }

  // ---- Crediting merchants ----

  /** What crediting one merchant by name does to cache and table: a miss is loaded from the
    row, an amount that is not positive is refused, the balance is written either way. */
  function CreditOne(purse: map<string, real>, users: map<string, UserRow>, n: string, amount: real): (map<string, real>, map<string, UserRow>) {
    if n in users then
      var balance := (if n in purse then purse[n] else users[n].balance) + Pos(amount);
      (purse[n := balance], users[n := users[n].(balance := balance)])
    else (purse, users)
  }

  lemma {:induction false} CreditLoaded(purse: map<string, real>, users: map<string, UserRow>, n: string, amount: real)
    ensures var loaded := WithPurses(purse, users, {n});
      CreditOne(purse, users, n, amount) ==
        if n in users && n in loaded
        then (loaded[n := loaded[n] + Pos(amount)], users[n := users[n].(balance := loaded[n] + Pos(amount))])
        else (loaded, users)
  {
    WithPursesOne(purse, users, n);
    if n in users && n !in purse {
      assert purse[n := users[n].balance][n := users[n].balance + Pos(amount)] == purse[n := users[n].balance + Pos(amount)];
    }
  }

  /** The balances written so far after one more credit. */
  function CreditWritten(purse: map<string, real>, users: map<string, UserRow>, written: map<string, real>,
                         n: string, amount: real): map<string, real> {
    if n !in users then written
    else
      var before := if n in written then written[n] else if n in purse then purse[n] else users[n].balance;
      written[n := before + Pos(amount)]
  }

  lemma {:induction false} WriteOne(users: map<string, UserRow>, written: map<string, real>, n: string, x: real)
    requires n in users
    ensures var users' := WriteBalances(users, written);
      users'[n := users'[n].(balance := x)] == WriteBalances(users, written[n := x])
  {
  }

  lemma {:induction false} CreditStep(purse: map<string, real>, users: map<string, UserRow>, written: map<string, real>,
                                      n: string, amount: real)
    ensures var written' := CreditWritten(purse, users, written, n, amount);
      CreditOne(purse + written, WriteBalances(users, written), n, amount)
        == (purse + written', WriteBalances(users, written'))
  {
    if n in users {
      var x := CreditWritten(purse, users, written, n, amount)[n];
      WriteOne(users, written, n, x);
      assert (purse + written)[n := x] == purse + written[n := x];
    }
  }

  /** The cache after the buyer was found and `subtractBalance` took the total. */
  function Debited(s: State, buyer: string, total: real): map<string, real>
    requires buyer in s.db.users
  {
    WithPurses(s.purse, s.db.users, {buyer})[buyer := BalanceOf(s, buyer) - total]
  }

  ghost function CreditedBalance(s: State, buyer: string, lines: map<int, Line>, how: Split, n: string): real
    requires n in s.db.users
  {
    BalanceOf(s, n) - (if n == buyer then Total(lines) else 0.0) + Credit(how, Owners(s.db), Amounts(lines), n)
  }

  /** What was written when every merchant has been credited: an entry for each registered
    merchant who sells something, and for nobody else. */
  ghost predicate Credited(s: State, buyer: string, lines: map<int, Line>, how: Split, written: map<string, real>)
    requires buyer in s.db.users
  {
    && (forall n :: n in written <==> n in s.db.users && Sells(Owners(s.db), lines.Keys, n))
    && (forall n :: n in written ==> written[n] == CreditedBalance(s, buyer, lines, how, n))
  }

  /** The balances written last include the buyer's, whether or not the buyer sells too. */
  function AllWritten(s: State, buyer: string, total: real, written: map<string, real>): map<string, real>
    requires buyer in s.db.users
  {
    written[buyer := (Debited(s, buyer, total) + written)[buyer]]
  }

  lemma {:induction false} BuyerSettled(s: State, uid: int, buyer: string, lines: map<int, Line>, how: Split, written: map<string, real>)
    requires buyer in s.db.users && s.db.users[buyer].id == uid && Credited(s, buyer, lines, how, written)
    ensures AllWritten(s, buyer, Total(lines), written)[buyer] == Settled(s, uid, lines, how, buyer)
  {
    if buyer !in written {
      assert Amounts(lines).Keys == lines.Keys;
      Payments.NoCredit(how, Owners(s.db), Amounts(lines), buyer);
    }
  }

  lemma {:induction false} SellerSettled(s: State, uid: int, buyer: string, lines: map<int, Line>, how: Split, n: string)
    requires UsersSound(s.db.users, s.db.lastUser)
    requires buyer in s.db.users && s.db.users[buyer].id == uid && n in s.db.users
    ensures Settled(s, uid, lines, how, n) == CreditedBalance(s, buyer, lines, how, n)
    ensures Party(s.db, uid, lines, n) <==> n == buyer || Sells(Owners(s.db), lines.Keys, n)
  {
  }

  lemma {:induction false} SameMap(a: map<string, real>, b: map<string, real>)
    requires forall n :: (n in a <==> n in b) && (n in a ==> a[n] == b[n])
    ensures a == b
  {
    assert a.Keys == b.Keys;
  }

  lemma {:induction false} WrittenSettled(s: State, uid: int, buyer: string, lines: map<int, Line>, how: Split,
                                          written: map<string, real>, n: string)
    requires UsersSound(s.db.users, s.db.lastUser)
    requires buyer in s.db.users && s.db.users[buyer].id == uid && Credited(s, buyer, lines, how, written)
    ensures var a, b := AllWritten(s, buyer, Total(lines), written), Settlements(s, uid, lines, how);
      (n in a <==> n in b) && (n in a ==> a[n] == b[n])
  {
    if n == buyer {
      BuyerSettled(s, uid, buyer, lines, how, written);
    } else if n in s.db.users {
      SellerSettled(s, uid, buyer, lines, how, n);
    }
  }

  /** The buyer pays, the merchants are credited, the buyer's balance is written last: together
    the written balances are the settlements of `Charge`. */
  lemma {:induction false} AllSettled(s: State, uid: int, buyer: string, lines: map<int, Line>, how: Split, written: map<string, real>)
    requires UsersSound(s.db.users, s.db.lastUser)
    requires buyer in s.db.users && s.db.users[buyer].id == uid && Credited(s, buyer, lines, how, written)
    ensures AllWritten(s, buyer, Total(lines), written) == Settlements(s, uid, lines, how)
  {
    var a, b := AllWritten(s, buyer, Total(lines), written), Settlements(s, uid, lines, how);
    forall n ensures (n in a <==> n in b) && (n in a ==> a[n] == b[n]) { WrittenSettled(s, uid, buyer, lines, how, written, n); }
    SameMap(a, b);
  }

  lemma {:induction false} ChargeReached(s: State, uid: int, buyer: string, lines: map<int, Line>, how: Split, written: map<string, real>)
    requires UsersSound(s.db.users, s.db.lastUser)
    requires buyer in s.db.users && s.db.users[buyer].id == uid && Credited(s, buyer, lines, how, written)
    ensures var users, end := WriteBalances(s.db.users, written), Debited(s, buyer, Total(lines)) + written;
      && buyer in users && buyer in end
      && State(s.db.(users := users[buyer := users[buyer].(balance := end[buyer])]), s.shelf, end)
        == Charge(s, uid, lines, how)
  {
    AllSettled(s, uid, buyer, lines, how, written);
    WriteLast(s, buyer, Total(lines), written);
  }

  lemma {:induction false} WriteLast(s: State, buyer: string, total: real, written: map<string, real>)
    requires buyer in s.db.users
    ensures var users, end := WriteBalances(s.db.users, written), Debited(s, buyer, total) + written;
      && buyer in users && buyer in end
      && users[buyer := users[buyer].(balance := end[buyer])] == WriteBalances(s.db.users, AllWritten(s, buyer, total, written))
      && end == s.purse + AllWritten(s, buyer, total, written)
  {
    var end := Debited(s, buyer, total) + written;
    WriteOne(s.db.users, written, buyer, end[buyer]);
    assert end == s.purse + written[buyer := end[buyer]];
  }

  /** The order's status is set, then the buyer's balance is written. */
  function PaidRows(t: Database, o: int, buyer: string, balance: real): Database
    requires buyer in t.users && o in t.orders
  {
    t.(orders := t.orders[o := t.orders[o].(status := Paid)], users := t.users[buyer := t.users[buyer].(balance := balance)])
  }

  /** The shop when the merchants' balances, the order's status and the buyer's balance are written. */
  function PaidState(t: Database, shelf: map<int, Shelf>, o: int, buyer: string, purse: map<string, real>, written: map<string, real>): State
    requires buyer in t.users && o in t.orders && buyer in purse
  {
    var end := purse + written;
    State(PaidRows(t.(users := WriteBalances(t.users, written)), o, buyer, end[buyer]), shelf, end)
  }

  lemma {:induction false} Finishing(t: Database, shelf: map<int, Shelf>, o: int, buyer: string, purse: map<string, real>,
                                     written: map<string, real>, t': Database, purse': map<string, real>)
    requires buyer in t.users && o in t.orders && buyer in purse
    requires t' == t.(users := t'.users) && t'.users == WriteBalances(t.users, written) && purse' == purse + written
    ensures var end := PaidState(t, shelf, o, buyer, purse, written);
      end.db == PaidRows(t', o, buyer, purse'[buyer]) && end.purse == purse'
  {
  }

  lemma {:induction false} PaymentReached(s: State, uid: int, buyer: string, lines: map<int, Line>, how: Split,
                                          written: map<string, real>, o: int)
    requires UsersSound(s.db.users, s.db.lastUser) && o in s.db.orders
    requires buyer in s.db.users && s.db.users[buyer].id == uid && Credited(s, buyer, lines, how, written)
    ensures PaidState(s.db, s.shelf, o, buyer, Debited(s, buyer, Total(lines)), written) == Mark(Charge(s, uid, lines, how), o, Paid)
  {
    ChargeReached(s, uid, buyer, lines, how, written);
  }

  /** Ids are unique, so the buyer who is found is the one who pays. */
  lemma {:induction false} TheBuyer(s: State, uid: int, buyer: string)
    requires UsersSound(s.db.users, s.db.lastUser) && Found(s, uid, buyer)
    ensures LoadBuyer(s, uid) == LoadPurses(s, {buyer})
  {
  }

  lemma {:induction false} BuyerCanPay(s: State, uid: int, buyer: string, lines: map<int, Line>)
    requires UsersSound(s.db.users, s.db.lastUser) && Found(s, uid, buyer)
    ensures CanPay(s, uid, lines) <==> 0.0 < Total(lines) <= BalanceOf(s, buyer)
    ensures var loaded := WithPurses(s.purse, s.db.users, {buyer}); buyer in loaded && loaded[buyer] == BalanceOf(s, buyer)
  {
  }

  // ---- checkout: the order and its lines ----

  /** The tables with a new, empty order. */
  function Opened(t: Database, uid: int, now: int): Database {
    t.(orders := t.orders[t.lastOrder + 1 := OrderRow(uid, Pending, now, map[])], lastOrder := t.lastOrder + 1)
  }

  lemma {:induction false} OpenedSound(t: Database, uid: int, now: int)
    requires Sound(t)
    ensures Sound(Opened(t, uid, now))
  {
  }

  /** The tables with the order written, its stock taken and the cart emptied. */
  function PlacedTables(t: Database, uid: int, now: int): Database {
    var w := Written(Opened(t, uid, now), t.lastOrder + 1, CartLines(t, uid));
    w.(carts := w.carts - {uid})
  }

  /** How the payment part of `checkout` ends; `s` is the shop with the order already written. */
  ghost predicate PaidNow(s: State, uid: int, o: int, lines: map<int, Line>, r: CheckoutResult, s': State)
    requires o in s.db.orders
  {
    match r
    case NoUser => (forall n :: !Found(s, uid, n)) && s' == s
    case NoFunds => (exists n :: Found(s, uid, n)) && !CanPay(s, uid, lines) && s' == LoadBuyer(s, uid)
    case Placed(id) => id == o && CanPay(s, uid, lines) && s' == Mark(Charge(s, uid, lines, PerLine), o, Paid)
    case _ => false
  }

  lemma {:induction false} PlacedStock(t: Database, uid: int, now: int)
    ensures PlacedTables(t, uid, now).commodities == Taken(t.commodities, CartLines(t, uid))
  {
  }

  lemma {:induction false} PlacedIs(s: State, uid: int, now: int, t: Database, shelf: map<int, Shelf>)
    requires t == PlacedTables(s.db, uid, now) && shelf == Lowered(s, CartLines(s.db, uid))
    ensures State(t, shelf, s.purse) == PlaceOrder(s, uid, now)
    ensures s.db.lastOrder + 1 in t.orders && t.users == s.db.users && t.lastUser == s.db.lastUser
    ensures t.commodities == Taken(s.db.commodities, CartLines(s.db, uid)) && CartLines(s.db, uid).Keys <= shelf.Keys
  {
  }

  /** How `checkout` ends once the order is written: a refused payment undoes the tables only.
    `paid` is the shop just before COMMIT or ROLLBACK. */
  ghost predicate Concluded(placed: State, uid: int, pay: bool, id: int, lines: map<int, Line>, t: Database,
                            r: CheckoutResult, paid: State, s': State)
    requires id in placed.db.orders
  {
    && s' == (if r.Placed? then paid else State(t, paid.shelf, paid.purse))
    && if pay then PaidNow(placed, uid, id, lines, r, paid) else r == Placed(id) && paid == placed
  }

  lemma {:induction false} CheckoutEnds(s: State, uid: int, pay: bool, now: int, r: CheckoutResult, paid: State, s': State)
    requires CartLines(s.db, uid).Keys != {} && WellStocked(s, CartLines(s.db, uid))
    requires Concluded(PlaceOrder(s, uid, now), uid, pay, s.db.lastOrder + 1, CartLines(s.db, uid), s.db, r, paid, s')
    ensures Checkout(s, uid, pay, now, r, s') && r != SqlFault
  {
    var s1 := PlaceOrder(s, uid, now);
    forall n ensures Found(s1, uid, n) <==> Found(s, uid, n) {}
    assert CanPay(s1, uid, CartLines(s.db, uid)) <==> CanPay(s, uid, CartLines(s.db, uid));
  }

  /** The two ends of `checkout` before the order is written. */
  lemma {:induction false} CheckoutStops(s: State, uid: int, pay: bool, now: int, stocked: bool, seen: set<int>, s': State)
    requires CartLines(s.db, uid).Keys != {} && seen <= CartLines(s.db, uid).Keys && s' == LoadShelves(s, seen)
    requires (stocked <==> WellStocked(s, CartLines(s.db, uid))) && (stocked ==> seen == CartLines(s.db, uid).Keys)
    ensures Checkout(s, uid, pay, now, if stocked then SqlFault else OutOfStock, s')
  {
  }

  /** How `payOrder` ends for the user's own PENDING order. */
  lemma {:induction false} PayEnds(s: State, uid: int, o: int, found: bool, r: PayResult, s': State)
    requires o in s.db.orders && s.db.orders[o].userId == uid && s.db.orders[o].status == Pending
    requires found <==> exists n :: Found(s, uid, n)
    requires var lines := s.db.orders[o].lines;
      if !found then r == NoPayer && s' == s
      else if CanPay(s, uid, lines) then r == Settlement && s' == Mark(Charge(s, uid, lines, Grouped), o, Paid)
      else r == Declined && s' == LoadBuyer(s, uid)
    ensures (s', r) == PayOrder(s, uid, o)
  {
  }

  // ---- checkout: one credit per line ----

  function BaseOf(purse: map<string, real>, users: map<string, UserRow>, n: string): real
    requires n in users
  {
    if n in purse then purse[n] else users[n].balance
  }

  /** Balances written to the sellers met so far, given everybody's credit so far. */
  function SellersWritten(purse: map<string, real>, users: map<string, UserRow>, sellers: set<string>,
                          credits: map<string, real>): map<string, real> {
    map n | n in users && n in sellers && n in credits :: BaseOf(purse, users, n) + credits[n]
  }

  lemma {:induction false} SellersWrittenStep(purse: map<string, real>, users: map<string, UserRow>, sellers: set<string>,
                                              credits: map<string, real>, credits': map<string, real>, m: string, amount: real)
    requires credits.Keys == credits'.Keys == users.Keys
    requires forall n :: n in users ==> credits'[n] == credits[n] + if n == m then Pos(amount) else 0.0
    requires forall n :: n in users && n !in sellers ==> credits[n] == 0.0
    ensures CreditWritten(purse, users, SellersWritten(purse, users, sellers, credits), m, amount)
      == SellersWritten(purse, users, sellers + {m}, credits')
  {
  }

  function Sellers(owner: map<int, string>, seen: set<int>): set<string> {
    set c | c in owner && c in seen :: owner[c]
  }

  ghost function CreditSoFar(owner: map<int, string>, due: map<int, real>, seen: set<int>, n: string): real {
    Sum(Only(CreditLines(owner, due, n), seen))
  }

  ghost function CreditsSoFar(names: set<string>, owner: map<int, string>, due: map<int, real>, seen: set<int>): map<string, real> {
    map n | n in names :: CreditSoFar(owner, due, seen, n)
  }

  /** The balances written when the lines in `seen` have been credited. */
  ghost function LineWritten(purse: map<string, real>, users: map<string, UserRow>, owner: map<int, string>,
                             due: map<int, real>, seen: set<int>): map<string, real> {
    SellersWritten(purse, users, Sellers(owner, seen), CreditsSoFar(users.Keys, owner, due, seen))
  }

  lemma {:induction false} LineWrittenNone(purse: map<string, real>, users: map<string, UserRow>, owner: map<int, string>, due: map<int, real>)
    ensures var written := LineWritten(purse, users, owner, due, {});
      WriteBalances(users, written) == users && purse + written == purse
  {
  }

  lemma {:induction false} SellsMore(owner: map<int, string>, seen: set<int>, c: int, n: string)
    requires c in owner
    ensures Sells(owner, seen + {c}, n) <==> Sells(owner, seen, n) || owner[c] == n
  {
  }

  /** Nothing sold among the lines met so far: nothing due, nothing credited. */
  lemma {:induction false} UnsoldSoFar(owner: map<int, string>, due: map<int, real>, seen: set<int>, n: string)
    requires !Sells(owner, seen, n)
    ensures Sum(Only(SalesLines(owner, due, n), seen)) == 0.0
    ensures Sum(Only(CreditLines(owner, due, n), seen)) == 0.0
  {
    var sales, credits := SalesLines(owner, due, n), CreditLines(owner, due, n);
    forall c | c in due && c in seen ensures sales[c] == 0.0 && credits[c] == 0.0 {
      assert c !in owner || owner[c] != n;
    }
    SumZero(Only(sales, seen));
    SumZero(Only(credits, seen));
  }

  lemma {:induction false} LineCredit(owner: map<int, string>, due: map<int, real>, seen: set<int>, c: int, n: string)
    requires c in due && c in owner && c !in seen
    ensures CreditSoFar(owner, due, seen + {c}, n)
      == CreditSoFar(owner, due, seen, n) + if owner[c] == n then Pos(due[c]) else 0.0
    ensures !Sells(owner, seen, n) ==> CreditSoFar(owner, due, seen, n) == 0.0
  {
    SumOnlyStep(CreditLines(owner, due, n), seen, c);
    if !Sells(owner, seen, n) { UnsoldSoFar(owner, due, seen, n); }
  }

  lemma {:induction false} LineWrittenStep(purse: map<string, real>, users: map<string, UserRow>, owner: map<int, string>,
                                           due: map<int, real>, seen: set<int>, c: int)
    requires c in due && c in owner && c !in seen
    ensures CreditWritten(purse, users, LineWritten(purse, users, owner, due, seen), owner[c], due[c])
      == LineWritten(purse, users, owner, due, seen + {c})
  {
    var credits, credits' := CreditsSoFar(users.Keys, owner, due, seen), CreditsSoFar(users.Keys, owner, due, seen + {c});
    forall n | n in users
      ensures credits'[n] == credits[n] + if n == owner[c] then Pos(due[c]) else 0.0
      ensures n !in Sellers(owner, seen) ==> credits[n] == 0.0
    {
      LineCredit(owner, due, seen, c, n);
      assert Sells(owner, seen, n) ==> n in Sellers(owner, seen);
    }
    SellersWrittenStep(purse, users, Sellers(owner, seen), credits, credits', owner[c], due[c]);
    SellersMore(owner, seen, c);
  }

  lemma {:induction false} SellersMore(owner: map<int, string>, seen: set<int>, c: int)
    requires c in owner
    ensures Sellers(owner, seen + {c}) == Sellers(owner, seen) + {owner[c]}
  {
  }

  lemma {:induction false} LinesComplete(owner: map<int, string>, due: map<int, real>, n: string)
    ensures CreditSoFar(owner, due, due.Keys, n) == Credit(PerLine, owner, due, n)
    ensures n in Sellers(owner, due.Keys) <==> Sells(owner, due.Keys, n)
  {
    assert Only(CreditLines(owner, due, n), due.Keys) == CreditLines(owner, due, n);
  }

  lemma {:induction false} BaseDebited(s: State, buyer: string, total: real, n: string)
    requires buyer in s.db.users && n in s.db.users
    ensures BaseOf(Debited(s, buyer, total), s.db.users, n) == BalanceOf(s, n) - if n == buyer then total else 0.0
  {
  }

  lemma {:induction false} LineWrittenAt(s: State, buyer: string, lines: map<int, Line>, purse: map<string, real>, n: string)
    requires buyer in s.db.users && purse == Debited(s, buyer, Total(lines))
    ensures var written := LineWritten(purse, s.db.users, Owners(s.db), Amounts(lines), lines.Keys);
      && (n in written <==> n in s.db.users && Sells(Owners(s.db), lines.Keys, n))
      && (n in written ==> written[n] == CreditedBalance(s, buyer, lines, PerLine, n))
  {
    assert Amounts(lines).Keys == lines.Keys;
    LinesComplete(Owners(s.db), Amounts(lines), n);
    if n in s.db.users { BaseDebited(s, buyer, Total(lines), n); }
  }

  lemma {:induction false} LineWrittenAll(s: State, buyer: string, lines: map<int, Line>, purse: map<string, real>)
    requires buyer in s.db.users && purse == Debited(s, buyer, Total(lines))
    ensures Credited(s, buyer, lines, PerLine,
      LineWritten(purse, s.db.users, Owners(s.db), Amounts(lines), lines.Keys))
  {
    forall n { LineWrittenAt(s, buyer, lines, purse, n); }
  }

  lemma {:induction false} LinesPaid(s: State, uid: int, buyer: string, lines: map<int, Line>, o: int,
                                     t: Database, shelf: map<int, Shelf>, purse: map<string, real>)
    requires t == s.db && shelf == s.shelf && UsersSound(t.users, t.lastUser) && o in t.orders
    requires buyer in t.users && t.users[buyer].id == uid && purse == Debited(s, buyer, Total(lines))
    ensures PaidState(t, shelf, o, buyer, purse, LineWritten(purse, t.users, Owners(t), Amounts(lines), lines.Keys))
      == Mark(Charge(s, uid, lines, PerLine), o, Paid)
  {
    LineWrittenAll(s, buyer, lines, purse);
    PaymentReached(s, uid, buyer, lines, PerLine, LineWritten(purse, t.users, Owners(t), Amounts(lines), lines.Keys), o);
  }

  // ---- payOrder: one sum per merchant, then one credit each ----

  /** `merchantAmounts` after the lines in `seen`. */
  ghost predicate GroupedSoFar(sums: map<string, real>, owner: map<int, string>, due: map<int, real>, seen: set<int>) {
    && (forall n :: n in sums <==> Sells(owner, seen, n))
    && (forall n :: n in sums ==> sums[n] == Sum(Only(SalesLines(owner, due, n), seen)))
  }

  lemma {:induction false} GroupStep(sums: map<string, real>, owner: map<int, string>, due: map<int, real>, seen: set<int>, c: int)
    requires c in due && c in owner && c !in seen && GroupedSoFar(sums, owner, due, seen)
    ensures var m := owner[c];
      GroupedSoFar(sums[m := (if m in sums then sums[m] else 0.0) + due[c]], owner, due, seen + {c})
  {
    var m := owner[c];
    var sums' := sums[m := (if m in sums then sums[m] else 0.0) + due[c]];
    forall n
      ensures n in sums' <==> Sells(owner, seen + {c}, n)
      ensures n in sums' ==> sums'[n] == Sum(Only(SalesLines(owner, due, n), seen + {c}))
    {
      SellsMore(owner, seen, c, n);
      SumOnlyStep(SalesLines(owner, due, n), seen, c);
      if n !in sums { UnsoldSoFar(owner, due, seen, n); }
    }
  }

  /** The balances written when the merchants in `paid` have got their sums. */
  function GroupWritten(purse: map<string, real>, users: map<string, UserRow>, sums: map<string, real>, paid: set<string>): map<string, real> {
    map n | n in sums && n in paid && n in users :: BaseOf(purse, users, n) + Pos(sums[n])
  }

  lemma {:induction false} GroupWrittenStep(purse: map<string, real>, users: map<string, UserRow>, sums: map<string, real>, paid: set<string>, n: string)
    requires n in sums && n !in paid
    ensures CreditWritten(purse, users, GroupWritten(purse, users, sums, paid), n, sums[n])
      == GroupWritten(purse, users, sums, paid + {n})
  {
  }

  lemma {:induction false} GroupWrittenAll(s: State, buyer: string, lines: map<int, Line>, sums: map<string, real>)
    requires buyer in s.db.users && GroupedSoFar(sums, Owners(s.db), Amounts(lines), lines.Keys)
    ensures Credited(s, buyer, lines, Grouped,
      GroupWritten(Debited(s, buyer, Total(lines)), s.db.users, sums, sums.Keys))
  {
    forall n ensures Only(SalesLines(Owners(s.db), Amounts(lines), n), lines.Keys) == SalesLines(Owners(s.db), Amounts(lines), n) {}
  }

  lemma {:induction false} GroupedNone(owner: map<int, string>, due: map<int, real>)
    ensures GroupedSoFar(map[], owner, due, {}) && Sum(Only(due, {})) == 0.0
  {
  }

  lemma {:induction false} GroupWrittenNone(purse: map<string, real>, users: map<string, UserRow>, sums: map<string, real>)
    ensures var written := GroupWritten(purse, users, sums, {});
      WriteBalances(users, written) == users && purse + written == purse
  {
  }

  lemma {:induction false} GroupsPaid(s: State, uid: int, buyer: string, lines: map<int, Line>, o: int,
                                      t: Database, shelf: map<int, Shelf>, purse: map<string, real>, sums: map<string, real>)
    requires t == s.db && shelf == s.shelf && UsersSound(t.users, t.lastUser) && o in t.orders
    requires buyer in t.users && t.users[buyer].id == uid && purse == Debited(s, buyer, Total(lines))
    requires GroupedSoFar(sums, Owners(t), Amounts(lines), lines.Keys)
    ensures PaidState(t, shelf, o, buyer, purse, GroupWritten(purse, t.users, sums, sums.Keys))
      == Mark(Charge(s, uid, lines, Grouped), o, Paid)
  {
    GroupWrittenAll(s, buyer, lines, sums);
    PaymentReached(s, uid, buyer, lines, Grouped, GroupWritten(purse, t.users, sums, sums.Keys), o);
  }
}
