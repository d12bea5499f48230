/** Concrete starts and requests at which the shop does something a reader may not expect. */
module Witnesses {
  import opened Sums
  import opened Tables
  import opened Shop
  import opened Requests
  import opened Invariants
  import opened Payments
  import opened Ledger
  import opened Cancelling
  import opened Steps
  import opened Effects
  import opened Runs
  import opened Equivalences

  const PEN := CommodityRow("pen", "Book", "ann", 10.0, 1.0, 3)

  /** Ann sells, bob buys. */
  function People(funds: real): map<string, UserRow> {
    map["ann" := UserRow(1, Merchant, 0.0, ""), "bob" := UserRow(2, Consumer, funds, "")]
  }

  /** A shop with one good, user id 2 being bob. */
  function Stall(funds: real, pen: CommodityRow, carts: map<int, map<int, int>>, orders: map<int, OrderRow>): Database {
    Database(People(funds), map[1 := pen], carts, orders, 2, 1, |orders|)
  }

  lemma {:induction false} Opening(s: State, funds: real, pen: CommodityRow, carts: map<int, map<int, int>>, orders: map<int, OrderRow>)
    requires s == State(Stall(funds, pen, carts, orders), map[], map[])
    requires 0.0 <= funds && RowFine(pen, {"ann", "bob"})
    requires CartsSound(carts, {1}) && CartsFine(carts) && OrdersSound(orders, |orders|, {1}) && OrdersFine(orders, 2)
    ensures Initial(s)
  {
    assert People(funds).Keys == {"ann", "bob"} && s.db.commodities.Keys == {1};
  }

  lemma {:induction false} OneEvent(s: State, q: Request, r: Reply, s': State)
    requires Initial(s) && Step(s, q, r, s') && Admissible(q)
    ensures Run([s, s'], [Event(q, r)])
  {
    assert Served([s, s'], [Event(q, r)], 0);
  }

  lemma {:induction false} SumOne(x: real)
    ensures Sum(map[1 := x]) == x
  {
    SumSingle(map[1 := x], 1);
  }

  lemma {:induction false} SumTwo(x: real, y: real)
    ensures Sum(map[1 := x, 2 := y]) == x + y
  {
    SumOne(x);
    SumInsert(map[1 := x], 2, y);
    assert map[1 := x, 2 := y] == map[1 := x][2 := y];
  }

  // ---- A refused checkout lowers the cached stock ----

  lemma {:induction false} NoMoney(s: State)
    requires s.db.users == People(0.0) && s.purse == map["bob" := 0.0]
    ensures Found(s, 2, "bob") && !CanPay(s, 2, map[1 := Line(2, 10.0)])
  {
    assert Amounts(map[1 := Line(2, 10.0)]) == map[1 := 20.0];
    SumOne(20.0);
  }

  lemma {:induction false} NoSale(s: State, s': State)
    requires s == State(Stall(0.0, PEN, map[2 := map[1 := 2]], map[]), map[], map["bob" := 0.0])
    requires s' == s.(shelf := map[1 := Shelf(10.0, 1.0, 1)])
    ensures Checkout(s, 2, true, 0, NoFunds, s')
  {
    var lines := CartLines(s.db, 2);
    assert lines == map[1 := Line(2, 10.0)];
    NoMoney(s);
    assert Lowered(s, lines) == s'.shelf;
    assert LoadBuyer(s', 2).purse == s'.purse;
  }

  lemma {:induction false} BobAsks(s: State, op: Op, r: Reply, s': State)
    requires "bob" in s.db.users && s.db.users["bob"].kind == Consumer == Role(op)
    requires Carried(LoadPurses(s, {"bob"}), "bob", op, r, s')
    ensures Step(s, By("bob", op), r, s')
  {
  }

  lemma {:induction false} BobChecksOut(s: State, s1: State, pay: bool, r: CheckoutResult, s': State)
    requires "bob" in s.db.users && s.db.users["bob"].kind == Consumer && s.db.users["bob"].id == 2
    requires s1 == LoadPurses(s, {"bob"}) && Checkout(s1, 2, pay, 0, r, s')
    ensures Step(s, By("bob", CheckoutOp(pay, 0)), Ordered(r), s')
  {
    BobAsks(s, CheckoutOp(pay, 0), Ordered(r), s');
  }

  function Broke(): State { State(Stall(0.0, PEN, map[2 := map[1 := 2]], map[]), map[], map[]) }

  function Drifted(): State { Broke().(shelf := map[1 := Shelf(10.0, 1.0, 1)], purse := map["bob" := 0.0]) }

  lemma {:induction false} Refuses()
    ensures Step(Broke(), By("bob", CheckoutOp(true, 0)), Ordered(NoFunds), Drifted())
  {
    var s := LoadPurses(Broke(), {"bob"});
    assert s.purse == map["bob" := 0.0];
    NoSale(s, Drifted());
    BobChecksOut(Broke(), s, true, NoFunds, Drifted());
  }

  /** Bob has two pens in the cart and no money. Nothing is sold, yet afterwards the cached
    stock of pens is two below the stored stock. */
  lemma {:induction false} RefusalDrifts()
    ensures Run([Broke(), Drifted()], [Event(By("bob", CheckoutOp(true, 0)), Ordered(NoFunds))]) && NoneOpen(Broke().db)
    ensures Drifted().db == Broke().db && Gap(Drifted(), 1) == 2
  {
    Refuses();
    Opening(Broke(), 0.0, PEN, map[2 := map[1 := 2]], map[]);
    OneEvent(Broke(), By("bob", CheckoutOp(true, 0)), Ordered(NoFunds), Drifted());
  }

  // ---- A restart with an open order can oversell ----

  function Pens(storage: int): CommodityRow { PEN.(storage := storage) }

  /** Bob's order of two pens. */
  function Old(status: Status): OrderRow { OrderRow(2, status, 0, map[1 := Line(2, 10.0)]) }

  function Restarted(): State { State(Stall(100.0, Pens(1), map[], map[1 := Old(Pending)]), map[], map[]) }

  function Reopened(): State {
    State(Stall(100.0, Pens(3), map[], map[1 := Old(Cancelled)]), map[1 := Shelf(10.0, 1.0, 5)], map["bob" := 100.0])
  }

  function Filled(): State {
    Reopened().(db := Stall(100.0, Pens(3), map[2 := map[1 := 5]], map[1 := Old(Cancelled)]))
  }

  function Oversold5(): State {
    State(
      Stall(100.0, Pens(3), map[], map[1 := Old(Cancelled), 2 := OrderRow(2, Pending, 0, map[1 := Line(5, 10.0)])]),
      map[1 := Shelf(10.0, 1.0, 0)], map["bob" := 100.0])
  }

  lemma {:induction false} CancelsUncached(s: State)
    requires s == Restarted().(purse := map["bob" := 100.0])
    ensures CancelOrder(s, 2, 1) == (Reopened(), true)
  {
    var lines := LinesOf(s.db, 1);
    assert Returned(s.db.commodities, lines) == map[1 := Pens(3)];
    assert Raised(s, lines) == map[1 := Shelf(10.0, 1.0, 5)];
    assert s.db.orders[1 := Old(Cancelled)] == map[1 := Old(Cancelled)];
  }

  lemma {:induction false} Reopens()
    ensures Step(Restarted(), By("bob", CancelOp(1)), Ok, Reopened())
  {
    var s := LoadPurses(Restarted(), {"bob"});
    assert s.purse == map["bob" := 100.0];
    CancelsUncached(s);
    BobAsks(Restarted(), CancelOp(1), Ok, Reopened());
  }

  lemma {:induction false} FillsCart()
    ensures Step(Reopened(), By("bob", AddItemOp("pen", 5)), Ok, Filled())
  {
    var s := Reopened();
    assert LoadPurses(s, {"bob"}).purse == s.purse;
    assert LoadPurses(s, {"bob"}) == s;
    assert Named(s.db, "pen") == Some(1) by { assert 1 in s.db.commodities; }
    assert LoadShelves(s, {1}).shelf == s.shelf;
    assert CartOf(s.db, 2)[1 := 5] == map[1 := 5];
    assert AddToCart(s, 2, "pen", 5) == (Filled(), true);
    BobAsks(s, AddItemOp("pen", 5), Ok, Filled());
  }

  lemma {:induction false} PlacesFive(s: State, z: State)
    requires s == Filled() && z == Oversold5()
    ensures CartLines(s.db, 2) == map[1 := Line(5, 10.0)] && PlaceOrder(s, 2, 0) == z
  {
    var lines := CartLines(s.db, 2);
    assert lines == map[1 := Line(5, 10.0)];
    assert Taken(s.db.commodities, lines) == s.db.commodities;
    assert Lowered(s, lines) == z.shelf;
    assert s.db.carts - {2} == map[];
    assert |s.db.orders| == 1 && |z.db.orders| == 2;
    assert s.db.orders[2 := OrderRow(2, Pending, 0, lines)] == z.db.orders;
  }

  lemma {:induction false} ChecksOutFive(s: State, z: State)
    requires s == Filled() && z == Oversold5()
    ensures Checkout(s, 2, false, 0, Placed(2), z)
  {
    PlacesFive(s, z);
  }

  lemma {:induction false} Oversells()
    ensures Step(Filled(), By("bob", CheckoutOp(false, 0)), Ordered(Placed(2)), Oversold5())
  {
    var s := Filled();
    assert LoadPurses(s, {"bob"}).purse == s.purse;
    ChecksOutFive(s, Oversold5());
    BobChecksOut(s, s, false, Placed(2), Oversold5());
  }

  lemma {:induction false} ThreeEvents(a: State, b: State, c: State, d: State, e: Event, f: Event, g: Event)
    requires Initial(a) && Step(a, e.q, e.r, b) && Step(b, f.q, f.r, c) && Step(c, g.q, g.r, d)
    requires Admissible(e.q) && Admissible(f.q) && Admissible(g.q)
    ensures Run([a, b, c, d], [e, f, g])
  {
    assert Served([a, b, c, d], [e, f, g], 0);
    assert Served([a, b, c, d], [e, f, g], 1);
    assert Served([a, b, c, d], [e, f, g], 2);
  }

  lemma {:induction false} FiveTooMany(s: State, z: State)
    requires s == Filled() && z == Oversold5()
    ensures Supply(z.db, 1) == Supply(s.db, 1) + 5
  {
    PlacesFive(s, z);
    assert s.db.orders.Keys == {1};
    InsertOrder(Owners(s.db), s.db.orders, 2, OrderRow(2, Pending, 0, CartLines(s.db, 2)), "", 0, 1);
    assert s.db.orders[2 := OrderRow(2, Pending, 0, CartLines(s.db, 2))] == z.db.orders;
  }

  /** The server restarts with bob's order still PENDING and one pen left. Cancelling the order
    raises the stored stock to three but the cached stock to five; bob can then order five
    pens, and the order holds them although the shelf keeps its three. */
  lemma {:induction false} RestartOversells() returns (es: seq<Event>)
    ensures Run([Restarted(), Reopened(), Filled(), Oversold5()], es)
    ensures es == [Event(By("bob", CancelOp(1)), Ok), Event(By("bob", AddItemOp("pen", 5)), Ok),
                   Event(By("bob", CheckoutOp(false, 0)), Ordered(Placed(2)))]
    ensures AllPending(Restarted().db, {1}) && Distance(Reopened(), 1) == -2
    ensures Supply(Oversold5().db, 1) == Supply(Filled().db, 1) + 5
  {
    var e, f := Event(By("bob", CancelOp(1)), Ok), Event(By("bob", AddItemOp("pen", 5)), Ok);
    var g := Event(By("bob", CheckoutOp(false, 0)), Ordered(Placed(2)));
    es := [e, f, g];
    Opening(Restarted(), 100.0, Pens(1), map[], map[1 := Old(Pending)]);
    Reopens();
    FillsCart();
    Oversells();
    ThreeEvents(Restarted(), Reopened(), Filled(), Oversold5(), e, f, g);
    FiveTooMany(Filled(), Oversold5());
  }

  // ---- A negative price separates paying now from paying later ----

  /** The price a client would not send but the server accepts. */
  const INK := CommodityRow("ink", "Book", "ann", -4.0, 1.0, 5)

  function Sober(): State { State(Stall(100.0, PEN, map[2 := map[1 := 1]], map[]), map[], map[]) }

  function Inked(): State {
    var t := Sober().db;
    State(t.(commodities := map[1 := PEN, 2 := INK], lastCommodity := 2), map[2 := FromRow(INK)], map["ann" := 0.0])
  }

  function Mixed(): State {
    Inked().(db := Inked().db.(carts := map[2 := map[1 := 1, 2 := 1]]), purse := map["ann" := 0.0, "bob" := 100.0])
  }

  function MixedLines(): map<int, Line> { map[1 := Line(1, 10.0), 2 := Line(1, -4.0)] }

  lemma {:induction false} AddsInk()
    ensures Step(Sober(), By("ann", AddCommodityOp("Book", "ink", -4.0, 5)), Ok, Inked())
  {
    var s := LoadPurses(Sober(), {"ann"});
    assert s.purse == map["ann" := 0.0];
    assert Named(s.db, "ink") == None;
    assert s.db.commodities[2 := INK] == Inked().db.commodities;
    assert AddCommodity(s, "Book", "ink", "ann", -4.0, 5, 1.0) == (Inked(), true);
  }

  lemma {:induction false} InkInCart(s: State)
    requires s == Inked().(purse := map["ann" := 0.0, "bob" := 100.0])
    ensures AddToCart(s, 2, "ink", 1) == (Mixed(), true)
  {
    assert Named(s.db, "ink") == Some(2) by { assert 2 in s.db.commodities; }
    assert LoadShelves(s, {2}).shelf == s.shelf;
    assert s.db.carts[2 := CartOf(s.db, 2)[2 := 1]] == Mixed().db.carts;
  }

  lemma {:induction false} AddsBoth()
    ensures Step(Inked(), By("bob", AddItemOp("ink", 1)), Ok, Mixed())
  {
    var s := LoadPurses(Inked(), {"bob"});
    assert s.purse == Mixed().purse;
    InkInCart(s);
    BobAsks(Inked(), AddItemOp("ink", 1), Ok, Mixed());
  }

  lemma {:induction false} MixedTotal()
    ensures Total(MixedLines()) == 6.0
  {
    assert Amounts(MixedLines()) == map[1 := 10.0, 2 := -4.0];
    SumTwo(10.0, -4.0);
  }

  lemma {:induction false} MixedPays(s: State)
    requires s == Mixed()
    ensures CanPay(s, 2, MixedLines())
  {
    MixedTotal();
    assert Found(s, 2, "bob") && BalanceOf(s, "bob") == 100.0;
  }

  lemma {:induction false} MixedCart(s: State)
    requires s == Mixed()
    ensures CartLines(s.db, 2) == MixedLines() && WellStocked(s, MixedLines())
  {
    assert CartLines(s.db, 2) == MixedLines();
  }

  lemma {:induction false} MixedSides(s: State)
    requires s == Mixed()
    ensures !OneSided(s.db, 2, MixedLines())
  {
    var lines := MixedLines();
    var sales := SalesLines(Owners(s.db), Amounts(lines), "ann");
    assert sales[1] == 10.0 && sales[2] == -4.0;
    assert 1 in lines.Keys && Party(s.db, 2, lines, "ann");
  }

  lemma {:induction false} MixedCheckout(s: State, paid: State)
    requires s == Mixed() && paid == Mark(Charge(PlaceOrder(s, 2, 0), 2, MixedLines(), PerLine), 1, Paid)
    ensures Checkout(s, 2, true, 0, Placed(1), paid)
    ensures Checkout(s, 2, false, 0, Placed(1), PlaceOrder(s, 2, 0))
  {
    MixedCart(s);
    MixedPays(s);
  }

  lemma {:induction false} MixedDiffers(s: State, paid: State)
    requires s == Mixed() && Checkout(s, 2, true, 0, Placed(1), paid)
    ensures var (later, r) := PayOrder(PlaceOrder(s, 2, 0), 2, 1); r == Settlement && later != paid
  {
    MixedCart(s);
    MixedSides(s);
    PayNowMeetsLater(s, 2, 0, 1, paid);
  }

  /** Ann offers ink at -4 beside pens at 10. Bob, with one of each in the cart, can pay at once
    or order first and pay afterwards; both succeed, and end in different shops. */
  lemma {:induction false} NegativePriceSeparates(s: State) returns (paid: State)
    requires s == Mixed()
    ensures Initial(Sober())
    ensures Step(Sober(), By("ann", AddCommodityOp("Book", "ink", -4.0, 5)), Ok, Inked())
    ensures Step(Inked(), By("bob", AddItemOp("ink", 1)), Ok, s)
    ensures Checkout(s, 2, true, 0, Placed(1), paid)
    ensures Checkout(s, 2, false, 0, Placed(1), PlaceOrder(s, 2, 0))
    ensures var (later, r) := PayOrder(PlaceOrder(s, 2, 0), 2, 1); r == Settlement && later != paid
  {
    Opening(Sober(), 100.0, PEN, map[2 := map[1 := 1]], map[]);
    AddsInk();
    AddsBoth();
    paid := Mark(Charge(PlaceOrder(s, 2, 0), 2, MixedLines(), PerLine), 1, Paid);
    MixedCheckout(s, paid);
    MixedDiffers(s, paid);
  }

  // ---- A discounted good is sold at the discounted price ----

  /** Pens at half price, two of them in bob's cart, and just the money for them. */
  function HalfPrice(): State { State(Stall(10.0, PEN.(discount := 0.5), map[2 := map[1 := 2]], map[]), map[], map[]) }

  function HalfBill(t: Database): map<int, real> {
    var cart: map<int, int> := if 2 in t.carts then t.carts[2] else map[];
    map c | c in cart && c in t.commodities :: t.commodities[c].basePrice * t.commodities[c].discount * cart[c] as real
  }

  lemma {:induction false} HalfBillIs(t: Database)
    requires t == HalfPrice().db
    ensures HalfBill(t) == map[1 := 10.0] && Sum(HalfBill(t)) == 10.0
  {
    SumOne(10.0);
  }

  lemma {:induction false} HalfPricePaid(t: Database, users': map<string, UserRow>)
    requires t == HalfPrice().db && Transfers(t, users', "bob", map[1 := 10.0])
    ensures "bob" in users' && users'["bob"].balance == 0.0
  {
    SumOne(10.0);
    SumOne(0.0);
    SoldIs(t, map[1 := 10.0], "bob");
    assert SalesLines(Owners(t), map[1 := 10.0], "bob") == map[1 := 0.0];
    assert "bob" in t.users;
  }

  lemma {:induction false} HalfPricePlaced(t: Database, t': Database)
    requires t == HalfPrice().db && Places(t, 2, map[1 := 2], Paid, 0, 1, t')
    ensures t'.orders == map[1 := OrderRow(2, Paid, 0, map[1 := Line(2, 5.0)])]
  {
    assert t'.orders[1].lines == map[1 := Line(2, 5.0)];
  }

  lemma {:induction false} HalfPriceEnds(t: Database, r: CheckoutResult, t': Database, shelf': map<int, Shelf>)
    requires t == HalfPrice().db && ChecksOut(t, map[], "bob", true, 0, r, t', shelf', true) && r != SqlFault
    ensures r == Placed(1) && Places(t, 2, map[1 := 2], Paid, 0, 1, t') && Transfers(t, t'.users, "bob", map[1 := 10.0])
  {
    HalfBillIs(t);
    assert t.users["bob"] == UserRow(2, Consumer, 10.0, "") && t.carts[2] == map[1 := 2];
    assert StockSeen(t, map[], 1) == 3;
  }

  lemma {:induction false} HalfPriceOpens()
    ensures BooksFine(HalfPrice()) && IsKind(HalfPrice().db, "bob", Consumer) && HalfPrice().shelf == map[]
  {
    Opening(HalfPrice(), 10.0, PEN.(discount := 0.5), map[2 := map[1 := 2]], map[]);
    InitialInv(HalfPrice());
  }

  lemma {:induction false} HalfPriceAnswers(s: State, r: Reply, s': State)
    requires BooksFine(s) && IsKind(s.db, "bob", Consumer) && Step(s, By("bob", CheckoutOp(true, 0)), r, s')
    ensures r.Ordered? && ChecksOut(s.db, s.shelf, "bob", true, 0, r.checkout, s'.db, s'.shelf, true)
  {
    StepAnswers(s, By("bob", CheckoutOp(true, 0)), r, s');
    UserEffect(s, "bob", CheckoutOp(true, 0), r, s', true);
  }

  /** Whatever the shop answers, unless an SQL statement fails bob gets his order at 5.0 a
    pen, which leaves him with nothing. */
  lemma {:induction false} HalfPriceSells(r: Reply, s': State)
    requires Step(HalfPrice(), By("bob", CheckoutOp(true, 0)), r, s') && r != Ordered(SqlFault)
    ensures r == Ordered(Placed(1)) && s'.db.orders == map[1 := OrderRow(2, Paid, 0, map[1 := Line(2, 5.0)])]
    ensures "bob" in s'.db.users && s'.db.users["bob"].balance == 0.0
  {
    HalfPriceOpens();
    HalfPriceAnswers(HalfPrice(), r, s');
    HalfPriceEnds(HalfPrice().db, r.checkout, s'.db, s'.shelf);
    HalfPricePlaced(HalfPrice().db, s'.db);
    HalfPricePaid(HalfPrice().db, s'.db.users);
  }
}
