/** Cart, orders and payment (src/OrderManager.cpp): the row-by-row code over the connection
  and the cached objects, each method proved against the function of `Shop` it carries out. */
module OrderDesk {
  import opened Sums
  import opened Tables
  import opened Shop
  import opened Sqlite
  import opened Accounts
  import opened Catalog
  import opened RowByRow

  datatype OrderItem = OrderItem(commodityName: string, quantity: int, unitPrice: real)

  /** `items` lists the lines row by row; `ids` says which commodity each row is about. */
  ghost predicate Lists(rows: map<int, CommodityRow>, lines: map<int, Line>, items: seq<OrderItem>, ids: seq<int>) {
    && |items| == |ids| && Enumerates(ids, lines.Keys) && lines.Keys <= rows.Keys
    && forall k :: 0 <= k < |ids| ==> ids[k] in lines && Describes(items[k], rows[ids[k]], lines[ids[k]])
  }

  predicate Describes(item: OrderItem, row: CommodityRow, line: Line) {
    item == OrderItem(row.name, line.quantity, line.unitPrice)
  }

  lemma {:induction false} ItemIsDue(rows: map<int, CommodityRow>, lines: map<int, Line>, items: seq<OrderItem>, ids: seq<int>, k: nat)
    requires Lists(rows, lines, items, ids) && k < |ids|
    ensures ids[k] in lines && Subtotal(items[k].unitPrice, items[k].quantity) == Amounts(lines)[ids[k]]
  {
    assert Describes(items[k], rows[ids[k]], lines[ids[k]]);
    var line := lines[ids[k]];
    assert Subtotal(items[k].unitPrice, items[k].quantity) == Subtotal(line.unitPrice, line.quantity) == Amount(line);
  }

  /** Taking stock renames nothing, so the list still describes the lines. */
  lemma {:induction false} ListsTaken(rows: map<int, CommodityRow>, lines: map<int, Line>, items: seq<OrderItem>, ids: seq<int>)
    requires Lists(rows, lines, items, ids)
    ensures Lists(Taken(rows, lines), lines, items, ids)
  {
  }

  /** The loop that adds up an order, as in `checkout` and `Order::getTotalAmount`. */
  method TotalOf(items: seq<OrderItem>, ghost rows: map<int, CommodityRow>, ghost lines: map<int, Line>, ghost ids: seq<int>)
    returns (total: real)
    requires Lists(rows, lines, items, ids)
    ensures total == Total(lines)
  {
    ghost var due := Amounts(lines);
    assert due.Keys == lines.Keys;
    total := 0.0;
    SumSeenEnds(due, ids);
    for k := 0 to |items|
      invariant total == SumSeen(due, ids, k)
    {
      SumSeenStep(due, ids, k);
      ItemIsDue(rows, lines, items, ids, k);
      total := total + Subtotal(items[k].unitPrice, items[k].quantity);
    }
  }

  datatype Order = Order(id: int, userId: int, status: Status, createdAt: int, items: seq<OrderItem>)

  /** `order` reports the row `o` as it stands, with its lines in the order `ids`. */
  ghost predicate Reports(t: Database, order: Order, o: int, ids: seq<int>) {
    && o in t.orders && order.id == o
    && order == Order(o, t.orders[o].userId, t.orders[o].status, t.orders[o].createdAt, order.items)
    && Lists(t.commodities, t.orders[o].lines, order.items, ids)
  }

  lemma {:induction false} NamedLoads(s: State, name: string, shelf: map<int, Shelf>, found: Option<int>)
    requires Named(s.db, name) == found
    requires shelf == WithShelves(s.shelf, s.db.commodities, if found.None? then {} else {found.value})
    ensures State(s.db, shelf, s.purse) == LoadNamed(s, name)
    ensures found.Some? ==> found.value in shelf && shelf[found.value] == ShelfOf(s, found.value)
  {
    if found.None? { assert shelf == s.shelf; }
  }

  function HeldIn(cart: map<int, int>, c: int): int { if c in cart then cart[c] else 0 }

  /** The end of `addToCart`, once the commodity was found. */
  lemma {:induction false} CartAdded(s: State, uid: int, name: string, c: int, quantity: int, ok: bool, s': State, fault: bool)
    requires Named(s.db, name) == Some(c) && 0 < quantity
    requires var cart, s1 := CartOf(s.db, uid), LoadNamed(s, name);
      if ShelfOf(s, c).storage < HeldIn(cart, c) + quantity then !ok && s' == s1
      else if ok then s' == SetCart(s1, uid, cart[c := HeldIn(cart, c) + quantity])
      else fault && s' == s1
    ensures DoneOrFailed(s', ok, AddToCart(s, uid, name, quantity), LoadNamed(s, name), fault)
  {
  }

  /** What the cart would cost, line by line, at the prices of the moment. */
  lemma {:induction false} CartBill(t: Database, uid: int, cart: map<int, int>)
    requires cart == (if uid in t.carts then t.carts[uid] else map[])
    ensures Amounts(CartLines(t, uid))
      == map c | c in cart && c in t.commodities :: t.commodities[c].basePrice * t.commodities[c].discount * cart[c] as real
  {
    assert CartOf(t, uid) == cart;
    var bill: map<int, real> := map c | c in cart && c in t.commodities ::
      t.commodities[c].basePrice * t.commodities[c].discount * cart[c] as real;
    forall c | c in bill ensures Amounts(CartLines(t, uid))[c] == bill[c] {
      assert Amount(CartLines(t, uid)[c]) == t.commodities[c].basePrice * t.commodities[c].discount * cart[c] as real;
    }
  }

  /** What an order costs, line by line. */
  lemma {:induction false} OrderBill(lines: map<int, Line>)
    ensures Amounts(lines) == map c | c in lines :: lines[c].unitPrice * lines[c].quantity as real
  {
    var bill: map<int, real> := map c | c in lines :: lines[c].unitPrice * lines[c].quantity as real;
    forall c | c in lines ensures Amounts(lines)[c] == bill[c] {
      assert Amount(lines[c]) == lines[c].unitPrice * lines[c].quantity as real;
    }
  }

  class OrderManager {
    const db: Connection
    const um: UserManager
    const cm: CommodityManager

    constructor (db: Connection, um: UserManager, cm: CommodityManager)
      requires um.db == db && cm.db == db
      ensures this.db == db && this.um == um && this.cm == cm
    {
      this.db, this.um, this.cm := db, um, cm;
    }

    /** Caches and tables fit together; a transaction may be running. */
    ghost predicate Ready()
      reads db, um, cm, um.db, cm.db
    {
      um.db == db && cm.db == db && Fits(db.t)
    }

    ghost predicate Fits(t: Database)
      reads um, cm
    {
      um.Fits(t) && cm.Fits(t) && Sound(t)
    }

    ghost predicate Valid()
      reads db, um, cm, um.db, cm.db
    {
      Ready() && !db.open
    }

    /** The shop these objects stand for. */
    ghost function Abs(): State
      reads db, um, um.userMap.Values, cm, cm.idMap.Values
    {
      State(db.t, cm.Shelves(), um.Purse())
    }

    // ---- The cart ----

    /** `getCommodityByName` as seen from here; `c.storage` is what the look-up sees. */
    method FetchNamed(name: string) returns (c: Commodity?)
      requires Ready()
      modifies cm
      ensures Ready() && cm.Grows() && Abs() == LoadNamed(old(Abs()), name)
      ensures c == null <==> Named(db.t, name).None?
      ensures c != null ==> Named(db.t, name) == Some(c.id) && cm.Cached(c)
      ensures c != null ==> c.OnShelf() == ShelfOf(old(Abs()), c.id)
    {
      ghost var s := Abs();
      c := cm.GetCommodityByName(name);
      NamedLoads(s, name, cm.Shelves(), if c == null then None else Some(c.id));
      if c != null { assert cm.Shelves()[c.id] == c.OnShelf(); }
    }

    /** The three statements on one user's cart rows. */
    method AddItem(uid: int, c: int, quantity: int) returns (ok: bool)
      requires Valid() && c in db.t.commodities
      modifies db`t, db`faults
      ensures Valid() && db.faults == old(db.faults) + if ok then 0 else 1
      ensures Abs() == if !ok then old(Abs()) else
        SetCart(old(Abs()), uid, CartOf(old(db.t), uid)[c := HeldIn(CartOf(old(db.t), uid), c) + quantity])
    {
      ok := db.AddItem(uid, c, quantity);
    }

    method DeleteItem(uid: int, c: int) returns (ok: bool)
      requires Valid()
      modifies db`t, db`faults
      ensures Valid() && db.faults == old(db.faults) + if ok then 0 else 1
      ensures Abs() == if !ok || uid !in old(db.t).carts then old(Abs()) else SetCart(old(Abs()), uid, old(db.t).carts[uid] - {c})
    {
      ok := db.DeleteItem(uid, c);
    }

    method ChangeItem(uid: int, c: int, quantity: int) returns (ok: bool)
      requires Valid()
      modifies db`t, db`faults
      ensures Valid() && db.faults == old(db.faults) + if ok then 0 else 1
      ensures Abs() == if !ok || c !in CartOf(old(db.t), uid) then old(Abs()) else SetCart(old(Abs()), uid, old(db.t).carts[uid][c := quantity])
    {
      ok := db.ChangeItem(uid, c, quantity);
    }

    method AddToCart(uid: int, name: string, quantity: int) returns (ok: bool)
      requires Valid()
      modifies cm, db`t, db`faults
      ensures Valid() && cm.Grows() && old(db.faults) <= db.faults
      ensures DoneOrFailed(Abs(), ok, Shop.AddToCart(old(Abs()), uid, name, quantity), LoadNamed(old(Abs()), name),
        old(db.faults) < db.faults)
    {
      ok := false;
      if quantity <= 0 { return; }
      var c := FetchNamed(name);
      if c == null { return; }
      ok := AddFetched(uid, c, name, quantity, old(Abs()));
    }

    method AddFetched(uid: int, c: Commodity, ghost name: string, quantity: int, ghost s: State) returns (ok: bool)
      requires Valid() && cm.Cached(c) && Abs() == LoadNamed(s, name)
      requires 0 < quantity && Named(s.db, name) == Some(c.id) && c.OnShelf() == ShelfOf(s, c.id)
      modifies db`t, db`faults
      ensures Valid() && old(db.faults) <= db.faults
      ensures DoneOrFailed(Abs(), ok, Shop.AddToCart(s, uid, name, quantity), LoadNamed(s, name), old(db.faults) < db.faults)
    {
      ok := false;
      if HeldIn(CartOf(db.t, uid), c.id) + quantity <= c.storage { ok := AddItem(uid, c.id, quantity); }
      CartAdded(s, uid, name, c.id, quantity, ok, Abs(), old(db.faults) < db.faults);
    }

    method RemoveFromCart(uid: int, name: string) returns (ok: bool)
      requires Valid()
      modifies cm, db`t, db`faults
      ensures Valid() && cm.Grows() && old(db.faults) <= db.faults
      ensures DoneOrFailed(Abs(), ok, Shop.RemoveFromCart(old(Abs()), uid, name), LoadNamed(old(Abs()), name),
        old(db.faults) < db.faults)
    {
      var c := FetchNamed(name);
      if c == null { return false; }
      ok := DeleteItem(uid, c.id);
    }

    method UpdateCartQuantity(uid: int, name: string, quantity: int) returns (ok: bool)
      requires Valid()
      modifies cm, db`t, db`faults
      ensures Valid() && cm.Grows() && old(db.faults) <= db.faults
      ensures DoneOrFailed(Abs(), ok, Shop.UpdateCartQuantity(old(Abs()), uid, name, quantity), LoadNamed(old(Abs()), name),
        old(db.faults) < db.faults)
    {
      if quantity <= 0 { return false; }
      var c := FetchNamed(name);
      if c == null { return false; }
      if c.storage < quantity { return false; }
      ok := ChangeItem(uid, c.id, quantity);
    }

    /** The cart joined with the commodities: name, quantity and discounted price of each line. */
    method GetCartItems(uid: int) returns (items: seq<OrderItem>, ghost ids: seq<int>)
      requires Ready()
      ensures Lists(db.t.commodities, CartLines(db.t, uid), items, ids)
      ensures var cart: map<int, int> := if uid in db.t.carts then db.t.carts[uid] else map[];
        && Enumerates(ids, cart.Keys * db.t.commodities.Keys) && |items| == |ids|
        && forall k :: 0 <= k < |ids| ==> (
            && ids[k] in cart && ids[k] in db.t.commodities
            && var row := db.t.commodities[ids[k]];
              items[k] == OrderItem(row.name, cart[ids[k]], row.basePrice * row.discount))
    {
      var cart := CartOf(db.t, uid);
      ghost var lines := CartLines(db.t, uid);
      var rest := cart.Keys;
      ghost var seen: set<int> := {};
      items, ids := [], [];
      while rest != {}
        invariant rest <= cart.Keys && seen !! rest && lines.Keys == seen + (rest * db.t.commodities.Keys)
        invariant |items| == |ids| && Enumerates(ids, seen)
        invariant forall k :: 0 <= k < |ids| ==> ids[k] in lines && Describes(items[k], db.t.commodities[ids[k]], lines[ids[k]])
        decreases rest
      {
        var c := NextRow(rest);
        rest := rest - {c};
        if c in db.t.commodities {
          EnumeratesMore(ids, seen, c);
          var row := db.t.commodities[c];
          items, ids, seen := items + [OrderItem(row.name, cart[c], row.basePrice * row.discount)], ids + [c], seen + {c};
        }
      }
      assert seen == cart.Keys * db.t.commodities.Keys;
    }

    /** The item rows of one order, joined with the commodities they name. */
    method GetItems(o: int) returns (items: seq<OrderItem>)
      requires Ready() && o in db.t.orders
      ensures exists ids :: Lists(db.t.commodities, db.t.orders[o].lines, items, ids)
    {
      var lines := db.t.orders[o].lines;
      var rest := lines.Keys;
      ghost var seen: set<int>, ids: seq<int> := {}, [];
      items := [];
      while rest != {}
        invariant rest == lines.Keys - seen && seen <= lines.Keys
        invariant |items| == |ids| && Enumerates(ids, seen)
        invariant forall k :: 0 <= k < |ids| ==> ids[k] in lines && Describes(items[k], db.t.commodities[ids[k]], lines[ids[k]])
        decreases rest
      {
        var c := NextRow(rest);
        EnumeratesMore(ids, seen, c);
        items, ids := items + [OrderItem(db.t.commodities[c].name, lines[c].quantity, lines[c].unitPrice)], ids + [c];
        seen, rest := seen + {c}, rest - {c};
      }
      assert Lists(db.t.commodities, lines, items, ids);
    }

    /** All orders of a user, newest id first, each with its lines. */
    method GetOrders(uid: int) returns (orders: seq<Order>, ghost ids: seq<seq<int>>)
      requires Ready()
      ensures |ids| == |orders|
      ensures forall k :: 0 <= k < |orders| ==> Reports(db.t, orders[k], orders[k].id, ids[k]) && orders[k].userId == uid
      ensures forall j, k :: 0 <= j < k < |orders| ==> orders[k].id < orders[j].id
      ensures forall o :: o in db.t.orders && db.t.orders[o].userId == uid ==> exists k :: 0 <= k < |orders| && orders[k].id == o
    {
      var own := set o | o in db.t.orders && db.t.orders[o].userId == uid;
      var rest := own;
      orders, ids := [], [];
      while rest != {}
        invariant rest <= own && |ids| == |orders|
        invariant forall k :: 0 <= k < |orders| ==> Reports(db.t, orders[k], orders[k].id, ids[k]) && orders[k].userId == uid
        invariant forall j, k :: 0 <= j < k < |orders| ==> orders[k].id < orders[j].id
        invariant forall j, o :: 0 <= j < |orders| && o in rest ==> o < orders[j].id
        invariant forall o :: o in own ==> o in rest || exists k :: 0 <= k < |orders| && orders[k].id == o
        decreases rest
      {
        var o := LargestRow(rest);
        var items := GetItems(o);
        ghost var keys :| Lists(db.t.commodities, db.t.orders[o].lines, items, keys);
        var row := db.t.orders[o];
        ghost var before := orders;
        orders, ids := orders + [Order(o, uid, row.status, row.createdAt, items)], ids + [keys];
        rest := rest - {o};
        forall p | p in own && p !in rest ensures exists k :: 0 <= k < |orders| && orders[k].id == p {
          if p == o { assert orders[|before|].id == p; } else {
            var k :| 0 <= k < |before| && before[k].id == p;
            assert orders[k].id == p;
          }
        }
      }
      forall o | o in db.t.orders && db.t.orders[o].userId == uid ensures exists k :: 0 <= k < |orders| && orders[k].id == o {
        assert o in own;
      }
    }

    /** The stock check before a checkout: it asks the cache, loading what is missing. */
    method ValidateStock(items: seq<OrderItem>, ghost lines: map<int, Line>, ghost ids: seq<int>)
      returns (ok: bool, ghost seen: set<int>)
      requires Ready() && Lists(db.t.commodities, lines, items, ids)
      modifies cm
      ensures Ready() && cm.Grows() && seen <= lines.Keys
      ensures cm.Shelves() == WithShelves(old(cm.Shelves()), db.t.commodities, seen)
      ensures ok ==> seen == lines.Keys
      ensures ok <==> WellStocked(old(Abs()), lines)
    {
      SeenEnds(ids, lines.Keys);
      seen := {};
      assert cm.Shelves() == WithShelves(old(cm.Shelves()), db.t.commodities, seen);
      for k := 0 to |items|
        invariant Ready() && cm.Grows() && seen == Seen(ids, k)
        invariant cm.Shelves() == WithShelves(old(cm.Shelves()), db.t.commodities, seen)
        invariant forall c :: c in seen ==> c in lines && lines[c].quantity <= ShelfOf(old(Abs()), c).storage
      {
        SeenStep(ids, lines.Keys, k);
        assert Describes(items[k], db.t.commodities[ids[k]], lines[ids[k]]);
        NamedIs(db.t, ids[k]);
        var c := cm.GetCommodityByName(items[k].commodityName);
        WithShelvesStep(old(cm.Shelves()), db.t.commodities, seen, {ids[k]});
        seen := seen + {ids[k]};
        assert c.OnShelf() == cm.Shelves()[ids[k]] == ShelfOf(old(Abs()), ids[k]);
        if c.storage < items[k].quantity { return false, seen; }
      }
      ok := true;
    }

    /** Looking up a row's commodity once it is known to be cached. */
    method LookUp(name: string, ghost id: int) returns (c: Commodity)
      requires Ready() && id in cm.idMap && id in db.t.commodities && db.t.commodities[id].name == name
      ensures c == cm.idMap[id] && c.id == id && c.merchant == db.t.commodities[id].merchant
    {
      assert cm.idMap[id].Carries(db.t.commodities[id]) && name in cm.nameMap;
      NamedIs(db.t, id);
      c := cm.GetCommodityByName(name);
    }

    /** Order lines and guarded stock updates, row by row inside the transaction. */
    method WriteItems(o: int, items: seq<OrderItem>, ghost lines: map<int, Line>, ghost ids: seq<int>) returns (ok: bool)
      requires Ready() && Lists(db.t.commodities, lines, items, ids) && lines.Keys <= cm.idMap.Keys
      requires o in db.t.orders && db.t.orders[o].lines == map[]
      modifies db`t, db`faults
      ensures if ok then db.faults == old(db.faults) else old(db.faults) < db.faults
      ensures ok ==> Ready() && db.t == Written(old(db.t), o, lines)
    {
      ghost var rows := db.t.commodities;
      SeenEnds(ids, lines.Keys);
      WrittenNone(db.t, o, lines);
      for k := 0 to |items|
        invariant Ready() && db.faults == old(db.faults)
        invariant db.t == Written(old(db.t), o, Only(lines, Seen(ids, k)))
      {
        SeenStep(ids, lines.Keys, k);
        WrittenStep(old(db.t), o, lines, Seen(ids, k), ids[k]);
        assert Describes(items[k], rows[ids[k]], lines[ids[k]]);
        var written := WriteItem(o, items[k], ids[k]);
        if !written { return false; }
      }
      assert Only(lines, lines.Keys) == lines;
      ok := true;
    }

    method WriteItem(o: int, item: OrderItem, ghost id: int) returns (ok: bool)
      requires Ready() && o in db.t.orders && id in cm.idMap
      requires id in db.t.commodities && db.t.commodities[id].name == item.commodityName && id !in db.t.orders[o].lines
      modifies db`t, db`faults
      ensures if ok then db.faults == old(db.faults) else old(db.faults) < db.faults
      ensures ok ==> Ready()
      ensures ok ==> db.t == old(db.t).(
        commodities := Taken(old(db.t).commodities, map[id := Line(item.quantity, 0.0)]),
        orders := old(db.t).orders[o := old(db.t).orders[o].(
          lines := old(db.t).orders[o].lines[id := Line(item.quantity, item.unitPrice)])])
    {
      var c := LookUp(item.commodityName, id);
      ok := db.InsertItem(o, c.id, Line(item.quantity, item.unitPrice));
      if !ok { return; }
      ok := db.TakeStock(c.id, item.quantity);
      if ok { ItemSound(old(db.t), o, id, Line(item.quantity, item.unitPrice)); }
    }

    /** The cached stock after the rows were taken, with no guard and no transaction. */
    method LowerCache(items: seq<OrderItem>, ghost lines: map<int, Line>, ghost ids: seq<int>)
      requires Ready() && Lists(db.t.commodities, lines, items, ids) && lines.Keys <= cm.idMap.Keys
      modifies cm.idMap.Values
      ensures Ready() && um.Purse() == old(um.Purse())
      ensures cm.Shelves() == LoweredSoFar(old(cm.Shelves()), lines, lines.Keys)
    {
      ghost var shelf := cm.Shelves();
      SeenEnds(ids, lines.Keys);
      assert shelf == LoweredSoFar(shelf, lines, {});
      for k := 0 to |items|
        invariant Ready() && um.Purse() == old(um.Purse())
        invariant cm.Shelves() == LoweredSoFar(shelf, lines, Seen(ids, k))
      {
        SeenStep(ids, lines.Keys, k);
        assert Describes(items[k], db.t.commodities[ids[k]], lines[ids[k]]);
        LowerOne(items[k], ids[k], shelf, lines, Seen(ids, k));
      }
    }

    method LowerPlaced(items: seq<OrderItem>, ghost s: State, ghost lines: map<int, Line>, ghost ids: seq<int>)
      requires Ready() && Lists(s.db.commodities, lines, items, ids) && lines.Keys <= cm.idMap.Keys
      requires db.t.commodities == Taken(s.db.commodities, lines) && cm.Shelves() == LoadShelves(s, lines.Keys).shelf
      modifies cm.idMap.Values
      ensures Ready() && um.Purse() == old(um.Purse()) && cm.Shelves() == Lowered(s, lines)
    {
      LoweredAll(s, lines);
      ListsTaken(s.db.commodities, lines, items, ids);
      LowerCache(items, lines, ids);
    }

    method LowerOne(item: OrderItem, ghost id: int, ghost shelf: map<int, Shelf>, ghost lines: map<int, Line>, ghost seen: set<int>)
      requires Ready() && id in cm.idMap && id in db.t.commodities && id in lines && id !in seen
      requires Describes(item, db.t.commodities[id], lines[id])
      requires cm.Shelves() == LoweredSoFar(shelf, lines, seen)
      modifies cm.idMap.Values
      ensures Ready() && um.Purse() == old(um.Purse())
      ensures cm.Shelves() == LoweredSoFar(shelf, lines, seen + {id})
    {
      assert id in cm.Shelves();
      LoweredStep(shelf, lines, seen, id);
      var c := LookUp(item.commodityName, id);
      ShiftStorage(c, -item.quantity);
    }

    /** `c->setStorage(c->getStorage() + delta)` */
    method ShiftStorage(c: Commodity, delta: int)
      requires Ready() && cm.Cached(c)
      modifies c
      ensures Ready() && um.Purse() == old(um.Purse()) && cm.Shelves() == Shift(old(cm.Shelves()), c.id, delta)
    {
      c.SetStorage(c.storage + delta);
      cm.OneShelfChanged(c);
    }

    // ---- Payment ----

    /** One merchant by name: a name without a user is skipped; the balance is written even
      when `addBalance` refused the amount. */
    method CreditMerchant(name: string, amount: real, ghost purse: map<string, real>, ghost users: map<string, UserRow>,
                          ghost written: map<string, real>)
      requires Ready() && Wrote(purse, users, written)
      modifies um, um.userMap.Values, db`t
      ensures Ready() && um.Grows() && db.t == old(db.t).(users := db.t.users) && cm.Shelves() == old(cm.Shelves())
      ensures Wrote(purse, users, CreditWritten(purse, users, written, name, amount))
    {
      CreditStep(purse, users, written, name, amount);
      CreditByName(name, amount);
    }

    method FindMerchant(name: string) returns (u: User?)
      requires Ready()
      modifies um
      ensures Ready() && um.Grows() && cm.Shelves() == old(cm.Shelves())
      ensures u == null <==> name !in db.t.users
      ensures u != null ==> u.username == name && name in um.userMap && um.userMap[name] == u
      ensures um.Purse() == WithPurses(old(um.Purse()), db.t.users, {name})
    {
      u := um.GetUserByUsername(name);
    }

    method CreditByName(name: string, amount: real)
      requires Ready()
      modifies um, um.userMap.Values, db`t
      ensures Ready() && um.Grows() && db.t == old(db.t).(users := db.t.users) && cm.Shelves() == old(cm.Shelves())
      ensures (um.Purse(), db.t.users) == CreditOne(old(um.Purse()), old(db.t.users), name, amount)
    {
      CreditLoaded(um.Purse(), db.t.users, name, amount);
      var merchant := FindMerchant(name);
      if merchant != null {
        assert um.Purse()[name] == merchant.balance;
        CreditAndStore(merchant, amount);
      }
    }

    /** `merchant->addBalance(amount); updateBalance(merchant);` */
    method CreditAndStore(merchant: User, amount: real)
      requires Ready() && merchant.username in um.userMap && um.userMap[merchant.username] == merchant
      modifies merchant, db`t
      ensures Ready() && db.t == old(db.t).(users := db.t.users) && cm.Shelves() == old(cm.Shelves())
      ensures merchant.balance == old(merchant.balance) + Pos(amount)
      ensures um.Purse() == old(um.Purse())[merchant.username := merchant.balance]
      ensures db.t.users == old(db.t).users[merchant.username := old(db.t).users[merchant.username].(balance := merchant.balance)]
    {
      var _ := merchant.AddBalance(amount);
      um.OnePurseChanged(merchant);
      um.UpdateBalance(merchant);
    }

    /** The balances in cache and table are those of before, with `written` on top. */
    ghost predicate Wrote(purse: map<string, real>, users: map<string, UserRow>, written: map<string, real>)
      reads db, um, um.userMap.Values
    {
      um.Purse() == purse + written && db.t.users == WriteBalances(users, written)
    }

    /** `checkout` credits merchants line by line. */
    method CreditPerLine(items: seq<OrderItem>, ghost lines: map<int, Line>, ghost ids: seq<int>)
      requires Ready() && Lists(db.t.commodities, lines, items, ids) && lines.Keys <= cm.idMap.Keys
      modifies um, um.userMap.Values, db`t
      ensures Ready() && um.Grows() && db.t == old(db.t).(users := db.t.users)
      ensures cm.Shelves() == old(cm.Shelves())
      ensures Wrote(old(um.Purse()), old(db.t).users,
        LineWritten(old(um.Purse()), old(db.t).users, Owners(old(db.t)), Amounts(lines), lines.Keys))
    {
      ghost var t, purse, due := db.t, um.Purse(), Amounts(lines);
      SeenEnds(ids, lines.Keys);
      LineWrittenNone(purse, t.users, Owners(t), due);
      for k := 0 to |items|
        invariant Ready() && um.Grows() && db.t == t.(users := db.t.users) && cm.Shelves() == old(cm.Shelves())
        invariant Wrote(purse, t.users, LineWritten(purse, t.users, Owners(t), due, Seen(ids, k)))
      {
        SeenStep(ids, lines.Keys, k);
        ItemIsDue(t.commodities, lines, items, ids, k);
        LineWrittenStep(purse, t.users, Owners(t), due, Seen(ids, k), ids[k]);
        assert Describes(items[k], t.commodities[ids[k]], lines[ids[k]]);
        CreditLine(items[k], ids[k], purse, t.users, LineWritten(purse, t.users, Owners(t), due, Seen(ids, k)));
      }
    }

    method CreditLine(item: OrderItem, ghost id: int, ghost purse: map<string, real>, ghost users: map<string, UserRow>,
                      ghost written: map<string, real>)
      requires Ready() && id in cm.idMap && id in db.t.commodities && db.t.commodities[id].name == item.commodityName
      requires Wrote(purse, users, written)
      modifies um, um.userMap.Values, db`t
      ensures Ready() && um.Grows() && db.t == old(db.t).(users := db.t.users) && cm.Shelves() == old(cm.Shelves())
      ensures Wrote(purse, users, CreditWritten(purse, users, written,
        old(db.t).commodities[id].merchant, Subtotal(item.unitPrice, item.quantity)))
    {
      var c := LookUp(item.commodityName, id);
      CreditMerchant(c.merchant, Subtotal(item.unitPrice, item.quantity), purse, users, written);
    }

    /** The end of a payment: the order's status, then the buyer's balance. */
    method StorePaid(o: int, consumer: User)
      requires Ready() && consumer.username in um.userMap && um.userMap[consumer.username] == consumer
      requires o in db.t.orders
      modifies db`t
      ensures Ready() && consumer.username in old(db.t).users
      ensures db.t == PaidRows(old(db.t), o, consumer.username, consumer.balance)
      ensures um.Purse() == old(um.Purse()) && cm.Shelves() == old(cm.Shelves())
    {
      db.SetStatus(o, Paid);
      um.UpdateBalance(consumer);
    }

    /** `subtractBalance` on a cached user. */
    method Deduct(consumer: User, total: real) returns (ok: bool)
      requires Ready() && consumer.username in um.userMap && um.userMap[consumer.username] == consumer
      modifies consumer
      ensures Ready() && consumer.username in old(um.Purse())
      ensures ok <==> 0.0 < total <= old(um.Purse())[consumer.username]
      ensures um.Purse() == var purse := old(um.Purse());
        if ok then purse[consumer.username := purse[consumer.username] - total] else purse
    {
      assert um.Purse()[consumer.username] == consumer.balance;
      ok := consumer.SubtractBalance(total);
      um.OnePurseChanged(consumer);
    }

    // ---- checkout ----

    /** The order, its lines and their stock. */
    method WriteRows(uid: int, now: int, items: seq<OrderItem>, ghost lines: map<int, Line>, ghost ids: seq<int>)
      returns (ok: bool, id: int)
      requires Ready() && Lists(db.t.commodities, lines, items, ids) && lines.Keys <= cm.idMap.Keys
      modifies db`t, db`faults
      ensures um.Purse() == old(um.Purse()) && cm.Shelves() == old(cm.Shelves())
      ensures if ok then db.faults == old(db.faults) else old(db.faults) < db.faults
      ensures ok ==> Ready() && id == old(db.t).lastOrder + 1 && db.t == Written(Opened(old(db.t), uid, now), id, lines)
    {
      OpenedSound(db.t, uid, now);
      ok, id := db.InsertOrder(uid, now);
      if ok { ok := WriteItems(id, items, lines, ids); }
    }

    /** Then the emptied cart. */
    method WriteOrder(uid: int, now: int, items: seq<OrderItem>, ghost ids: seq<int>) returns (ok: bool, id: int)
      requires Ready() && Lists(db.t.commodities, CartLines(db.t, uid), items, ids)
      requires CartLines(db.t, uid).Keys <= cm.idMap.Keys
      modifies db`t, db`faults
      ensures um.Purse() == old(um.Purse()) && cm.Shelves() == old(cm.Shelves())
      ensures if ok then db.faults == old(db.faults) else old(db.faults) < db.faults
      ensures ok ==> Ready() && id == old(db.t).lastOrder + 1 && db.t == PlacedTables(old(db.t), uid, now)
    {
      ok, id := WriteRows(uid, now, items, CartLines(db.t, uid), ids);
      if ok { DropCart(uid); }
    }

    method DropCart(uid: int)
      requires Ready()
      modifies db`t
      ensures Ready() && db.t == old(db.t).(carts := old(db.t).carts - {uid})
      ensures um.Purse() == old(um.Purse()) && cm.Shelves() == old(cm.Shelves())
    {
      db.ClearCart(uid);
    }

    /** And the cached stock. */
    method Place(uid: int, now: int, items: seq<OrderItem>, ghost s: State, ghost ids: seq<int>) returns (ok: bool, id: int)
      requires Ready() && db.t == s.db && Lists(db.t.commodities, CartLines(s.db, uid), items, ids)
      requires cm.Shelves() == LoadShelves(s, CartLines(s.db, uid).Keys).shelf
      modifies cm.idMap.Values, db`t, db`faults
      ensures um.Purse() == old(um.Purse())
      ensures if ok then db.faults == old(db.faults) else old(db.faults) < db.faults
      ensures !ok ==> cm.Shelves() == old(cm.Shelves())
      ensures ok ==> id == s.db.lastOrder + 1 && Ready() && db.t == PlacedTables(s.db, uid, now)
      ensures ok ==> cm.Shelves() == Lowered(s, CartLines(s.db, uid))
    {
      ghost var lines := CartLines(s.db, uid);
      assert cm.idMap.Keys == cm.Shelves().Keys;
      ok, id := WriteOrder(uid, now, items, ids);
      PlacedStock(s.db, uid, now);
      if ok { LowerPlaced(items, s, lines, ids); }
    }

    /** Merchants, status, buyer, in this order. */
    method CreditAndFinish(consumer: User, o: int, items: seq<OrderItem>, ghost lines: map<int, Line>, ghost ids: seq<int>, ghost end: State)
      requires Ready() && Lists(db.t.commodities, lines, items, ids) && lines.Keys <= cm.idMap.Keys && o in db.t.orders
      requires consumer.username in um.userMap && um.userMap[consumer.username] == consumer
      requires consumer.username in um.Purse() && consumer.username in db.t.users
      requires end == PaidState(db.t, cm.Shelves(), o, consumer.username, um.Purse(),
        LineWritten(um.Purse(), db.t.users, Owners(db.t), Amounts(lines), lines.Keys))
      modifies um, um.userMap.Values, db`t
      ensures Ready() && Abs() == end
      ensures UserManager.Keeps(old(um.userMap), um.userMap)
    {
      ghost var t, purse := db.t, um.Purse();
      CreditPerLine(items, lines, ids);
      Finishing(t, cm.Shelves(), o, consumer.username, purse,
        LineWritten(purse, t.users, Owners(t), Amounts(lines), lines.Keys), db.t, um.Purse());
      assert um.Purse()[consumer.username] == consumer.balance;
      StorePaid(o, consumer);
    }

    /** The buyer has been found and is in the cache. */
    method Collect(consumer: User, uid: int, total: real, ghost s: State, ghost lines: map<int, Line>) returns (ok: bool)
      requires Ready() && consumer.username in um.userMap && um.userMap[consumer.username] == consumer
      requires db.t == s.db && Found(s, uid, consumer.username) && total == Total(lines)
      requires um.Purse() == WithPurses(s.purse, s.db.users, {consumer.username})
      modifies consumer
      ensures Ready() && (ok <==> CanPay(s, uid, lines))
      ensures !ok ==> um.Purse() == old(um.Purse())
      ensures ok ==> um.Purse() == Debited(s, consumer.username, total)
    {
      BuyerCanPay(s, uid, consumer.username, lines);
      ok := Deduct(consumer, total);
    }

    /** What is left of an immediate payment. */
    method PayFrom(consumer: User, uid: int, o: int, items: seq<OrderItem>, ghost s: State, ghost lines: map<int, Line>, ghost ids: seq<int>)
      returns (ok: bool)
      requires Ready() && Lists(db.t.commodities, lines, items, ids) && lines.Keys <= cm.idMap.Keys && o in s.db.orders
      requires consumer.username in um.userMap && um.userMap[consumer.username] == consumer
      requires Found(s, uid, consumer.username) && Abs() == LoadPurses(s, {consumer.username})
      modifies um, um.userMap.Values, db`t
      ensures Ready()
      ensures ok <==> CanPay(s, uid, lines)
      ensures Abs() == if ok then Mark(Charge(s, uid, lines, PerLine), o, Paid) else old(Abs())
      ensures UserManager.Keeps(old(um.userMap), um.userMap)
    {
      var total := TotalOf(items, db.t.commodities, lines, ids);
      ok := Collect(consumer, uid, total, s, lines);
      if ok {
        LinesPaid(s, uid, consumer.username, lines, o, db.t, cm.Shelves(), um.Purse());
        CreditAndFinish(consumer, o, items, lines, ids, Mark(Charge(s, uid, lines, PerLine), o, Paid));
      }
    }

    method FindBuyer(uid: int) returns (consumer: User?)
      requires Ready()
      modifies um
      ensures Ready() && um.Grows()
      ensures consumer == null ==> (forall n :: !Found(old(Abs()), uid, n)) && Abs() == old(Abs())
      ensures consumer != null ==> consumer.username in um.userMap && um.userMap[consumer.username] == consumer
      ensures consumer != null ==> Found(old(Abs()), uid, consumer.username) && Abs() == LoadPurses(old(Abs()), {consumer.username})
    {
      ghost var s := Abs();
      consumer := um.GetUserById(uid);
      forall n ensures Found(s, uid, n) == Found(State(s.db, map[], s.purse), uid, n) {}
    }

    /** `checkout` with immediate payment, after the order has been written. */
    method PayNow(uid: int, o: int, items: seq<OrderItem>, ghost lines: map<int, Line>, ghost ids: seq<int>)
      returns (r: CheckoutResult)
      requires Ready() && Lists(db.t.commodities, lines, items, ids) && lines.Keys <= cm.idMap.Keys && o in db.t.orders
      modifies um, um.userMap.Values, db`t
      ensures Ready()
      ensures PaidNow(old(Abs()), uid, o, lines, r, Abs())
      ensures UserManager.Keeps(old(um.userMap), um.userMap)
    {
      ghost var s := Abs();
      var consumer := FindBuyer(uid);
      r := NoUser;
      if consumer != null {
        TheBuyer(s, uid, consumer.username);
        var ok := PayFrom(consumer, uid, o, items, s, lines, ids);
        r := if ok then Placed(o) else NoFunds;
      }
    }

    /** ROLLBACK: the tables go back, the caches stay. */
    method Undo()
      requires db.open && um.db == db && cm.db == db && Fits(db.saved)
      modifies db`t, db`open
      ensures Valid() && db.t == db.saved
      ensures um.Purse() == old(um.Purse()) && cm.Shelves() == old(cm.Shelves())
    {
      db.Rollback();
    }

    method Seal()
      requires db.open && Ready()
      modifies db`open
      ensures Valid() && Abs() == old(Abs())
    {
      db.Commit();
    }

    /** ROLLBACK after a refused payment: nothing was written to the users table. */
    method Refuse(ghost t: Database)
      requires Ready() && cm.Fits(t) && Sound(t) && db.open && db.saved == t
      requires db.t.users == t.users && db.t.lastUser == t.lastUser
      modifies db`t, db`open
      ensures Valid() && db.t == t
      ensures um.Purse() == old(um.Purse()) && cm.Shelves() == old(cm.Shelves())
    {
      um.FitsUsers(db.t, t);
      Undo();
    }

    /** The end of `checkout` with immediate payment: the order is written and the cached stock
      lowered. `paid` is the shop just before COMMIT or ROLLBACK. */
    method PayAndConclude(uid: int, id: int, items: seq<OrderItem>, ghost t: Database, ghost lines: map<int, Line>, ghost ids: seq<int>)
      returns (r: CheckoutResult, ghost paid: State)
      requires Ready() && Fits(t) && db.open && db.saved == t && id in db.t.orders
      requires db.t.users == t.users && db.t.lastUser == t.lastUser
      requires Lists(db.t.commodities, lines, items, ids) && lines.Keys <= cm.idMap.Keys
      modifies db`t, db`open, um, um.userMap.Values
      ensures Valid()
      ensures PaidNow(old(Abs()), uid, id, lines, r, paid)
      ensures Abs() == if r.Placed? then paid else State(t, paid.shelf, paid.purse)
      ensures UserManager.Keeps(old(um.userMap), um.userMap)
    {
      r := PayNow(uid, id, items, lines, ids);
      paid := Abs();
      if r.Placed? {
        Seal();
      } else {
        Refuse(t);
      }
    }

    /** After the order is written: payment if asked for, then COMMIT or ROLLBACK. */
    method Conclude(uid: int, pay: bool, id: int, items: seq<OrderItem>, ghost placed: State, ghost t: Database,
                    ghost lines: map<int, Line>, ghost ids: seq<int>)
      returns (r: CheckoutResult, ghost paid: State)
      requires Ready() && Fits(t) && db.open && db.saved == t && Abs() == placed && id in db.t.orders
      requires db.t.users == t.users && db.t.lastUser == t.lastUser
      requires Lists(db.t.commodities, lines, items, ids) && lines.Keys <= cm.idMap.Keys
      modifies db`t, db`open, um, um.userMap.Values
      ensures Valid()
      ensures Concluded(placed, uid, pay, id, lines, t, r, paid, Abs())
      ensures UserManager.Keeps(old(um.userMap), um.userMap)
    {
      if pay {
        r, paid := PayAndConclude(uid, id, items, t, lines, ids);
      } else {
        r, paid := Placed(id), placed;
        Seal();
      }
    }

    method TryStart() returns (ok: bool)
      requires Valid()
      modifies db`saved, db`open, db`faults
      ensures Ready() && db.open == ok && db.t == old(db.t) && db.faults == old(db.faults) + if ok then 0 else 1
      ensures ok ==> db.saved == db.t
      ensures um.Purse() == old(um.Purse()) && cm.Shelves() == old(cm.Shelves())
    {
      ok := db.TryBegin();
    }

    /** BEGIN and the order; a failed statement rolls everything back. */
    method BeginOrder(uid: int, now: int, items: seq<OrderItem>, ghost s: State, ghost ids: seq<int>) returns (ok: bool, id: int)
      requires Valid() && db.t == s.db && Lists(db.t.commodities, CartLines(s.db, uid), items, ids)
      requires cm.Shelves() == LoadShelves(s, CartLines(s.db, uid).Keys).shelf
      modifies db, cm.idMap.Values
      ensures um.Purse() == old(um.Purse())
      ensures if ok then db.faults == old(db.faults) else old(db.faults) < db.faults
      ensures !ok ==> Valid() && db.t == s.db && cm.Shelves() == old(cm.Shelves())
      ensures ok ==> id == s.db.lastOrder + 1 && Ready() && db.open && db.saved == s.db && Fits(s.db)
      ensures ok ==> db.t == PlacedTables(s.db, uid, now) && cm.Shelves() == Lowered(s, CartLines(s.db, uid))
    {
      id := 0;
      ok := TryStart();
      if ok {
        ok, id := Place(uid, now, items, s, ids);
        if !ok { Undo(); }
      }
    }

    /** From the written order to COMMIT or ROLLBACK. */
    method FinishCheckout(uid: int, pay: bool, now: int, id: int, items: seq<OrderItem>, ghost s: State, ghost ids: seq<int>)
      returns (r: CheckoutResult)
      requires Ready() && Fits(s.db) && db.open && db.saved == s.db && id == s.db.lastOrder + 1
      requires db.t == PlacedTables(s.db, uid, now) && cm.Shelves() == Lowered(s, CartLines(s.db, uid)) && um.Purse() == s.purse
      requires Lists(s.db.commodities, CartLines(s.db, uid), items, ids)
      requires CartLines(s.db, uid).Keys != {} && WellStocked(s, CartLines(s.db, uid))
      modifies db`t, db`open, um, um.userMap.Values
      ensures Valid() && r != SqlFault
      ensures Shop.Checkout(s, uid, pay, now, r, Abs())
      ensures UserManager.Keeps(old(um.userMap), um.userMap)
    {
      ghost var lines, paid := CartLines(s.db, uid), s;
      ListsTaken(s.db.commodities, lines, items, ids);
      PlacedIs(s, uid, now, db.t, cm.Shelves());
      assert cm.idMap.Keys == cm.Shelves().Keys;
      r, paid := Conclude(uid, pay, id, items, PlaceOrder(s, uid, now), s.db, lines, ids);
      CheckoutEnds(s, uid, pay, now, r, paid, Abs());
    }

    /** From BEGIN to COMMIT or ROLLBACK; the cart is not empty and the stock check has passed. */
    method CheckoutRows(uid: int, pay: bool, now: int, items: seq<OrderItem>, ghost s: State, ghost ids: seq<int>)
      returns (r: CheckoutResult)
      requires Valid() && Abs() == LoadShelves(s, CartLines(s.db, uid).Keys)
      requires Lists(db.t.commodities, CartLines(s.db, uid), items, ids)
      requires CartLines(s.db, uid).Keys != {} && WellStocked(s, CartLines(s.db, uid))
      modifies db, um, um.userMap.Values, cm.idMap.Values
      ensures Valid() && old(db.faults) <= db.faults && (r == SqlFault ==> old(db.faults) < db.faults)
      ensures Shop.Checkout(s, uid, pay, now, r, Abs())
      ensures UserManager.Keeps(old(um.userMap), um.userMap)
    {
      var ok, id := BeginOrder(uid, now, items, s, ids);
      if ok {
        r := FinishCheckout(uid, pay, now, id, items, s, ids);
      } else {
        r := SqlFault;
        CheckoutStops(s, uid, pay, now, true, CartLines(s.db, uid).Keys, Abs());
      }
    }

    /** The stock check, then the transaction. */
    method CheckoutItems(uid: int, pay: bool, now: int, items: seq<OrderItem>, ghost ids: seq<int>) returns (r: CheckoutResult)
      requires Valid() && Lists(db.t.commodities, CartLines(db.t, uid), items, ids) && CartLines(db.t, uid).Keys != {}
      modifies db, um, um.userMap.Values, cm, cm.idMap.Values
      ensures Valid() && old(db.faults) <= db.faults && (r == SqlFault ==> old(db.faults) < db.faults)
      ensures Shop.Checkout(old(Abs()), uid, pay, now, r, Abs())
      ensures UserManager.Keeps(old(um.userMap), um.userMap)
      ensures CommodityManager.Keeps(old(cm.idMap), cm.idMap) && CommodityManager.Keeps(old(cm.nameMap), cm.nameMap)
    {
      ghost var s := Abs();
      var ok, seen := ValidateStock(items, CartLines(db.t, uid), ids);
      assert Abs() == LoadShelves(s, seen);
      if ok {
        r := CheckoutRows(uid, pay, now, items, s, ids);
      } else {
        r := OutOfStock;
        CheckoutStops(s, uid, pay, now, false, seen, Abs());
      }
    }

    method Checkout(uid: int, pay: bool, now: int) returns (r: CheckoutResult)
      requires Valid()
      modifies db, um, um.userMap.Values, cm, cm.idMap.Values
      ensures Valid() && old(db.faults) <= db.faults && (r == SqlFault ==> old(db.faults) < db.faults)
      ensures Shop.Checkout(old(Abs()), uid, pay, now, r, Abs())
      ensures UserManager.Keeps(old(um.userMap), um.userMap)
      ensures CommodityManager.Keeps(old(cm.idMap), cm.idMap) && CommodityManager.Keeps(old(cm.nameMap), cm.nameMap)
    {
      ghost var ids;
      var items;
      items, ids := GetCartItems(uid);
      assert Abs() == old(Abs());
      EnumeratesSize(ids, CartLines(db.t, uid).Keys);
      r := EmptyCart;
      if items != [] { r := CheckoutItems(uid, pay, now, items, ids); }
    }

    // ---- payOrder ----

    /** The rows of an order: their total, and one sum per merchant. */
    method SumByMerchant(o: int) returns (total: real, sums: map<string, real>)
      requires Ready() && o in db.t.orders
      ensures var lines := db.t.orders[o].lines;
        total == Total(lines) && GroupedSoFar(sums, Owners(db.t), Amounts(lines), lines.Keys)
    {
      var lines := db.t.orders[o].lines;
      ghost var due, owner := Amounts(lines), Owners(db.t);
      var rest := lines.Keys;
      ghost var seen: set<int> := {};
      total, sums := 0.0, map[];
      GroupedNone(owner, due);
      while rest != {}
        invariant rest == lines.Keys - seen && seen <= lines.Keys
        invariant total == Sum(Only(due, seen)) && GroupedSoFar(sums, owner, due, seen)
        decreases rest
      {
        var c := NextRow(rest);
        SumOnlyStep(due, seen, c);
        GroupStep(sums, owner, due, seen, c);
        var merchant := db.t.commodities[c].merchant;
        var amount := Subtotal(lines[c].unitPrice, lines[c].quantity);
        total := total + amount;
        sums := sums[merchant := (if merchant in sums then sums[merchant] else 0.0) + amount];
        seen, rest := seen + {c}, rest - {c};
      }
      assert Only(due, lines.Keys) == due && seen == lines.Keys;
    }

    method CreditGroup(n: string, sums: map<string, real>, ghost purse: map<string, real>, ghost users: map<string, UserRow>,
                       ghost rest: set<string>)
      requires Ready() && n in rest && rest <= sums.Keys && Wrote(purse, users, GroupWritten(purse, users, sums, sums.Keys - rest))
      modifies um, um.userMap.Values, db`t
      ensures Ready() && um.Grows() && db.t == old(db.t).(users := db.t.users) && cm.Shelves() == old(cm.Shelves())
      ensures Wrote(purse, users, GroupWritten(purse, users, sums, sums.Keys - (rest - {n})))
    {
      assert sums.Keys - rest + {n} == sums.Keys - (rest - {n});
      GroupWrittenStep(purse, users, sums, sums.Keys - rest, n);
      CreditMerchant(n, sums[n], purse, users, GroupWritten(purse, users, sums, sums.Keys - rest));
    }

    /** `payOrder` credits each merchant once, in the order in which the hash map yields them. */
    method CreditGroups(sums: map<string, real>)
      requires Ready()
      modifies um, um.userMap.Values, db`t
      ensures Ready() && um.Grows() && db.t == old(db.t).(users := db.t.users)
      ensures cm.Shelves() == old(cm.Shelves())
      ensures Wrote(old(um.Purse()), old(db.t).users, GroupWritten(old(um.Purse()), old(db.t).users, sums, sums.Keys))
    {
      ghost var t, purse, shelves := db.t, um.Purse(), cm.Shelves();
      var rest := sums.Keys;
      assert sums.Keys - rest == {};
      GroupWrittenNone(purse, t.users, sums);
      while rest != {}
        invariant rest <= sums.Keys && Ready() && um.Grows() && db.t == t.(users := db.t.users) && cm.Shelves() == shelves
        invariant Wrote(purse, t.users, GroupWritten(purse, t.users, sums, sums.Keys - rest))
        decreases rest
      {
        var n := NextRow(rest);
        CreditGroup(n, sums, purse, t.users, rest);
        rest := rest - {n};
      }
      assert sums.Keys - rest == sums.Keys;
    }

    method CreditGroupsAndFinish(consumer: User, o: int, sums: map<string, real>, ghost end: State)
      requires Ready() && o in db.t.orders
      requires consumer.username in um.userMap && um.userMap[consumer.username] == consumer
      requires consumer.username in um.Purse() && consumer.username in db.t.users
      requires end == PaidState(db.t, cm.Shelves(), o, consumer.username, um.Purse(),
        GroupWritten(um.Purse(), db.t.users, sums, sums.Keys))
      modifies um, um.userMap.Values, db`t
      ensures Ready() && Abs() == end
      ensures UserManager.Keeps(old(um.userMap), um.userMap)
    {
      ghost var t, purse := db.t, um.Purse();
      CreditGroups(sums);
      Finishing(t, cm.Shelves(), o, consumer.username, purse, GroupWritten(purse, t.users, sums, sums.Keys), db.t, um.Purse());
      assert um.Purse()[consumer.username] == consumer.balance;
      StorePaid(o, consumer);
    }

    method Start()
      requires Valid()
      modifies db`saved, db`open
      ensures Ready() && db.open && db.saved == db.t == old(db.t)
      ensures um.Purse() == old(um.Purse()) && cm.Shelves() == old(cm.Shelves())
    {
      db.Begin();
    }

    /** BEGIN, merchants, status, buyer, COMMIT. */
    method Transfer(consumer: User, o: int, sums: map<string, real>, ghost end: State)
      requires Valid() && o in db.t.orders
      requires consumer.username in um.userMap && um.userMap[consumer.username] == consumer
      requires consumer.username in um.Purse() && consumer.username in db.t.users
      requires end == PaidState(db.t, cm.Shelves(), o, consumer.username, um.Purse(),
        GroupWritten(um.Purse(), db.t.users, sums, sums.Keys))
      modifies um, um.userMap.Values, db`t, db`saved, db`open
      ensures Valid() && Abs() == end
      ensures UserManager.Keeps(old(um.userMap), um.userMap)
    {
      Start();
      CreditGroupsAndFinish(consumer, o, sums, end);
      Seal();
    }

    /** The transaction of `payOrder`; unlike `checkout`, it takes the money before BEGIN. */
    method PayGroups(consumer: User, uid: int, o: int, total: real, sums: map<string, real>, ghost s: State) returns (ok: bool)
      requires Valid() && o in s.db.orders
      requires consumer.username in um.userMap && um.userMap[consumer.username] == consumer
      requires Found(s, uid, consumer.username) && Abs() == LoadPurses(s, {consumer.username})
      requires total == Total(s.db.orders[o].lines)
      requires GroupedSoFar(sums, Owners(s.db), Amounts(s.db.orders[o].lines), s.db.orders[o].lines.Keys)
      modifies um, um.userMap.Values, db`t, db`saved, db`open
      ensures Valid()
      ensures ok <==> CanPay(s, uid, s.db.orders[o].lines)
      ensures Abs() == if ok then Mark(Charge(s, uid, s.db.orders[o].lines, Grouped), o, Paid) else old(Abs())
      ensures UserManager.Keeps(old(um.userMap), um.userMap)
    {
      ghost var lines := s.db.orders[o].lines;
      ok := Collect(consumer, uid, total, s, lines);
      if ok {
        GroupsPaid(s, uid, consumer.username, lines, o, db.t, cm.Shelves(), um.Purse(), sums);
        Transfer(consumer, o, sums, Mark(Charge(s, uid, lines, Grouped), o, Paid));
      }
    }

    /** The order is the user's own and PENDING. */
    method PayPending(uid: int, o: int) returns (r: PayResult)
      requires Valid() && o in db.t.orders && db.t.orders[o].userId == uid && db.t.orders[o].status == Pending
      modifies um, um.userMap.Values, db`t, db`saved, db`open
      ensures Valid()
      ensures (Abs(), r) == Shop.PayOrder(old(Abs()), uid, o)
      ensures UserManager.Keeps(old(um.userMap), um.userMap)
    {
      ghost var s := Abs();
      var total, sums := SumByMerchant(o);
      assert Abs() == s;
      var consumer := FindBuyer(uid);
      r := NoPayer;
      if consumer != null {
        TheBuyer(s, uid, consumer.username);
        var ok := PayGroups(consumer, uid, o, total, sums, s);
        r := if ok then Settlement else Declined;
      }
      PayEnds(s, uid, o, consumer != null, r, Abs());
    }

    method PayOrder(uid: int, o: int) returns (r: PayResult)
      requires Valid()
      modifies um, um.userMap.Values, db`t, db`saved, db`open
      ensures Valid()
      ensures (Abs(), r) == Shop.PayOrder(old(Abs()), uid, o)
      ensures UserManager.Keeps(old(um.userMap), um.userMap)
    {
      if o !in db.t.orders || db.t.orders[o].userId != uid { return NoOrder; }
      if db.t.orders[o].status != Pending { return WrongStatus; }
      r := PayPending(uid, o);
    }

    // ---- Cancelling ----

    method ReturnLine(c: int, quantity: int, ghost after: State)
      requires Ready() && c in db.t.commodities && OneBack(Abs(), c, quantity) == after
      modifies db`t, cm, cm.idMap.Values
      ensures Ready() && cm.Grows() && Abs() == after
    {
      ReturnStock(c, quantity);
      var cached := Fetch(c);
      ShiftStorage(cached, quantity);
    }

    method Fetch(id: int) returns (c: Commodity)
      requires Ready() && id in db.t.commodities
      modifies cm
      ensures Ready() && cm.Grows() && um.Purse() == old(um.Purse())
      ensures c.id == id && cm.Cached(c)
      ensures cm.Shelves() == WithShelves(old(cm.Shelves()), db.t.commodities, {id})
    {
      c := cm.GetCommodityById(id);
    }

    method ReturnStock(c: int, quantity: int)
      requires Ready()
      modifies db`t
      ensures Ready() && um.Purse() == old(um.Purse()) && cm.Shelves() == old(cm.Shelves())
      ensures db.t == old(db.t).(commodities := Returned(old(db.t).commodities, map[c := Line(quantity, 0.0)]))
    {
      ReturnedSound(db.t, map[c := Line(quantity, 0.0)]);
      db.ReturnStock(c, quantity);
    }

    method ReturnNext(c: int, quantity: int, ghost s: State, ghost lines: map<int, Line>, ghost seen: set<int>)
      requires Ready() && c in lines && c !in seen && c in s.db.commodities && quantity == lines[c].quantity
      requires Abs() == PutBack(s, Only(lines, seen))
      modifies db`t, cm, cm.idMap.Values
      ensures Ready() && cm.Grows() && Abs() == PutBack(s, Only(lines, seen + {c}))
    {
      PutBackStep(s, lines, seen, c);
      ReturnLine(c, quantity, PutBack(s, Only(lines, seen + {c})));
    }

    method ReturnLines(o: int)
      requires Ready()
      modifies db`t, cm, cm.idMap.Values
      ensures Ready() && cm.Grows() && Abs() == PutBack(old(Abs()), LinesOf(old(db.t), o))
    {
      var lines := LinesOf(db.t, o);
      var rest := lines.Keys;
      ghost var s, seen: set<int> := Abs(), {};
      PutBackNone(s, lines);
      OnlyAll(lines);
      assert lines.Keys <= s.db.commodities.Keys;
      while rest != {}
        invariant rest == lines.Keys - seen && seen <= lines.Keys
        invariant Ready() && cm.Grows() && Abs() == PutBack(s, Only(lines, seen))
        decreases rest
      {
        var c := NextRow(rest);
        ReturnNext(c, lines[c].quantity, s, lines, seen);
        seen, rest := seen + {c}, rest - {c};
      }
      assert seen == lines.Keys;
    }

    method CancelOrderInternal(o: int)
      requires Ready()
      modifies db`t, cm, cm.idMap.Values
      ensures Ready() && cm.Grows()
      ensures Abs() == CancelInternal(old(Abs()), o)
    {
      CancelDone(Abs(), o);
      ReturnLines(o);
      MarkCancelled(o);
    }

    method MarkCancelled(o: int)
      requires Ready()
      modifies db`t
      ensures Ready() && um.Purse() == old(um.Purse()) && cm.Shelves() == old(cm.Shelves())
      ensures db.t == Mark(State(old(db.t), map[], map[]), o, Cancelled).db
    {
      db.SetStatus(o, Cancelled);
    }

    method CancelOrder(uid: int, o: int) returns (ok: bool)
      requires Valid()
      modifies db`t, db`saved, db`open, cm, cm.idMap.Values
      ensures Valid() && cm.Grows()
      ensures ok <==> o in old(db.t).orders && old(db.t).orders[o].userId == uid && old(db.t).orders[o].status == Pending
      ensures (Abs(), ok) == Shop.CancelOrder(old(Abs()), uid, o)
    {
      if o !in db.t.orders || db.t.orders[o].userId != uid { return false; }
      if db.t.orders[o].status != Pending { return false; }
      Start();
      CancelOrderInternal(o);
      Seal();
      ok := true;
    }

    method FindExpired(cutoff: int) returns (ids: seq<int>)
      ensures Enumerates(ids, Expired(db.t, cutoff))
    {
      var rest := Expired(db.t, cutoff);
      ghost var seen: set<int> := {};
      ids := [];
      while rest != {}
        invariant rest == Expired(db.t, cutoff) - seen && seen <= Expired(db.t, cutoff)
        invariant Enumerates(ids, seen)
        decreases rest
      {
        var o := NextRow(rest);
        EnumeratesMore(ids, seen, o);
        ids, seen, rest := ids + [o], seen + {o}, rest - {o};
      }
      assert seen == Expired(db.t, cutoff);
    }

    method CancelEach(ids: seq<int>)
      requires Ready()
      modifies db`t, cm, cm.idMap.Values
      ensures Ready() && cm.Grows() && Abs() == CancelAll(old(Abs()), ids)
    {
      ghost var s := Abs();
      CancelAllEnds(s, ids);
      for k := 0 to |ids|
        invariant Ready() && cm.Grows() && Abs() == CancelAll(s, ids[..k])
      {
        CancelAllStep(s, ids, k);
        CancelOrderInternal(ids[k]);
      }
    }

    /** Times are in seconds. */
    method CancelExpiredOrders(now: int, timeoutMinutes: int) returns (count: int)
      requires Valid()
      modifies db`t, db`saved, db`open, cm, cm.idMap.Values
      ensures Valid() && cm.Grows()
      ensures Sweep(old(Abs()), now - 60 * timeoutMinutes, count, Abs())
      ensures var t, cutoff := old(db.t), now - 60 * timeoutMinutes;
        count == |set o | o in t.orders && t.orders[o].status == Pending && t.orders[o].createdAt < cutoff|
    {
      var cutoff := now - 60 * timeoutMinutes;
      var ids := FindExpired(cutoff);
      EnumeratesSize(ids, Expired(db.t, cutoff));
      assert Abs() == old(Abs());
      count := |ids|;
      assert Enumerates(ids, Expired(old(Abs()).db, cutoff));
      if ids == [] { return; }
      Start();
      CancelEach(ids);
      Seal();
    }
  }
}
