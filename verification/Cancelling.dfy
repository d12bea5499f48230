/** Cancelling orders: what one cancellation undoes, and what a sweep over many adds up to. */
module Cancelling {
  import opened Sums
  import opened Tables
  import opened Shop
  import opened Invariants
  import opened Ledger

  // ---- One order ----

  ghost predicate GuardHolds(rows: map<int, CommodityRow>, lines: map<int, Line>) {
    forall c :: c in lines && c in rows ==> lines[c].quantity <= rows[c].storage
  }

  lemma {:induction false} TakeAndReturn(rows: map<int, CommodityRow>, lines: map<int, Line>)
    requires forall c :: c in lines ==> 0 < lines[c].quantity
    ensures Returned(Taken(rows, lines), lines) == rows <==> GuardHolds(rows, lines)
  {
    var rows2 := Returned(Taken(rows, lines), lines);
    forall c | c in lines && c in rows
      ensures rows2[c] == rows[c] <==> lines[c].quantity <= rows[c].storage
    {
      assert 0 < lines[c].quantity;
    }
    if GuardHolds(rows, lines) {
      forall c | c in rows ensures rows2[c] == rows[c] {}
      assert rows2 == rows;
    }
  }

  lemma {:induction false} LowerAndRaise(s: State, s1: State, lines: map<int, Line>)
    requires lines.Keys <= s.db.commodities.Keys && s1.shelf == Lowered(s, lines)
    ensures Raised(s1, lines) == LoadShelves(s, lines.Keys).shelf
  {
    forall c | c in lines ensures Raised(s1, lines)[c] == ShelfOf(s, c) { assert c in s1.shelf; }
  }

  /** After checking out and cancelling, the cached stock is back in every case; the stored
    stock is back exactly when the guarded UPDATE had matched every line. */
  lemma {:induction false} CheckoutThenCancel(s: State, uid: int, now: int, id: int, s1: State)
    requires Checkout(s, uid, false, now, Placed(id), s1)
    requires CartFine(CartOf(s.db, uid)) && id !in s.db.orders
    ensures CancelOrder(s1, uid, id).1
    ensures var s2, lines := CancelOrder(s1, uid, id).0, CartLines(s.db, uid);
      && s2.purse == s.purse && s2.db.users == s.db.users
      && s2.shelf == LoadShelves(s, lines.Keys).shelf
      && s2.db.orders == s.db.orders[id := OrderRow(uid, Cancelled, now, lines)]
      && s2.db.carts == s.db.carts - {uid}
      && (s2.db.commodities == s.db.commodities <==> GuardHolds(s.db.commodities, lines))
  {
    var lines := CartLines(s.db, uid);
    assert LinesOf(s1.db, id) == lines;
    LowerAndRaise(s, s1, lines);
    TakeAndReturn(s.db.commodities, lines);
  }

  /** In a state the shop can reach, the guard always matches, so nothing is lost or gained. */
  lemma {:induction false} CancelUndoesCheckout(s: State, uid: int, now: int, id: int, s1: State)
    requires Inv(s) && Checkout(s, uid, false, now, Placed(id), s1)
    ensures CancelOrder(s1, uid, id).1
    ensures var s2, lines := CancelOrder(s1, uid, id).0, CartLines(s.db, uid);
      s2 == State(
        s.db.(orders := s.db.orders[id := OrderRow(uid, Cancelled, now, lines)], carts := s.db.carts - {uid}, lastOrder := id),
        LoadShelves(s, lines.Keys).shelf, s.purse)
  {
    CartLinesFine(s, uid);
    LoweredFits(s, CartLines(s.db, uid));
    assert CartFine(CartOf(s.db, uid));
    CheckoutThenCancel(s, uid, now, id, s1);
  }

  /** Signed distance between the stored stock and what a look-up sees. */
  function Distance(s: State, c: int): int
    requires c in s.db.commodities
  {
    s.db.commodities[c].storage - ShelfOf(s, c).storage
  }

  /** Cancelling keeps cache and table in step exactly for the commodities that were cached;
    on a cache miss the cached stock ends up above the stored stock. */
  lemma {:induction false} CancelNeedsCache(s: State, o: int, c: int)
    requires o in s.db.orders && c in s.db.orders[o].lines && c in s.db.commodities
    requires 0 < s.db.orders[o].lines[c].quantity
    ensures Distance(CancelInternal(s, o), c) == Distance(s, c) <==> c in s.shelf
    ensures c !in s.shelf ==> Distance(CancelInternal(s, o), c) < 0
  {
  }

  // ---- Many orders ----

  function Ordered(orders: map<int, OrderRow>, c: int): map<int, int> {
    map o | o in orders :: Quantity(orders[o].lines, c)
  }

  /** The quantity of `c` on the given orders, taken together. */
  ghost function Restock(orders: map<int, OrderRow>, gone: set<int>, c: int): int {
    Count(Only(Ordered(orders, c), gone))
  }

  /** The shop after cancelling a set of orders at once. */
  ghost function Swept(s: State, gone: set<int>): State {
    State(
      s.db.(
        commodities := map c | c in s.db.commodities ::
          s.db.commodities[c].(storage := s.db.commodities[c].storage + Restock(s.db.orders, gone, c)),
        orders := map o | o in s.db.orders ::
          if o in gone then s.db.orders[o].(status := Cancelled) else s.db.orders[o]),
      map c | c in s.shelf :: s.shelf[c].(storage := s.shelf[c].storage + Restock(s.db.orders, gone, c)),
      s.purse)
  }

  ghost predicate AllPending(t: Database, ids: set<int>) {
    forall o :: o in ids ==> o in t.orders && t.orders[o].status == Pending
  }

  lemma {:induction false} RestockStep(orders: map<int, OrderRow>, gone: set<int>, o: int, c: int)
    requires o in orders && o !in gone
    ensures Restock(orders, gone + {o}, c) == Restock(orders, gone, c) + Quantity(orders[o].lines, c)
  {
    CountInsert(Only(Ordered(orders, c), gone), o, Ordered(orders, c)[o]);
    assert Only(Ordered(orders, c), gone + {o}) == Only(Ordered(orders, c), gone)[o := Ordered(orders, c)[o]];
  }

  lemma {:induction false} SweptRows(s: State, gone: set<int>, o: int)
    requires o in s.db.orders && o !in gone
    ensures Returned(Swept(s, gone).db.commodities, s.db.orders[o].lines) == Swept(s, gone + {o}).db.commodities
  {
    var rows, rows' := Returned(Swept(s, gone).db.commodities, s.db.orders[o].lines), Swept(s, gone + {o}).db.commodities;
    forall c | c in s.db.commodities ensures rows[c] == rows'[c] { RestockStep(s.db.orders, gone, o, c); }
    assert rows.Keys == rows'.Keys;
  }

  lemma {:induction false} SweptOne(s: State, gone: set<int>, o: int, c: int)
    requires o in s.db.orders && o !in gone && c in s.shelf
    ensures Swept(s, gone + {o}).shelf[c] == Shelf(s.shelf[c].basePrice, s.shelf[c].discount,
      Swept(s, gone).shelf[c].storage + Quantity(s.db.orders[o].lines, c))
  {
    RestockStep(s.db.orders, gone, o, c);
  }

  lemma {:induction false} SweptShelf(s: State, gone: set<int>, o: int)
    requires o in s.db.orders && o !in gone && s.db.orders[o].lines.Keys <= s.shelf.Keys
    ensures Raised(Swept(s, gone), s.db.orders[o].lines) == Swept(s, gone + {o}).shelf
  {
    var shelf, shelf' := Raised(Swept(s, gone), s.db.orders[o].lines), Swept(s, gone + {o}).shelf;
    assert shelf.Keys == shelf'.Keys;
    forall c | c in s.shelf ensures shelf[c] == shelf'[c] { SweptOne(s, gone, o, c); }
  }

  lemma {:induction false} SweptStep(s: State, gone: set<int>, o: int)
    requires o in s.db.orders && o !in gone && s.db.orders[o].lines.Keys <= s.shelf.Keys
    ensures CancelInternal(Swept(s, gone), o) == Swept(s, gone + {o})
  {
    var mid := Swept(s, gone);
    assert LinesOf(mid.db, o) == s.db.orders[o].lines;
    SweptRows(s, gone, o);
    SweptShelf(s, gone, o);
    assert mid.db.orders[o := mid.db.orders[o].(status := Cancelled)] == Swept(s, gone + {o}).db.orders;
  }

  lemma {:induction false} SweptNone(s: State)
    ensures Swept(s, {}) == s
  {
  }

  /** Cancelling PENDING orders one after the other, in whatever order they come, is
    cancelling them all at once. */
  lemma {:induction false} AnyOrderSweeps(s: State, ids: seq<int>, gone: set<int>)
    requires Inv(s) && Enumerates(ids, gone) && AllPending(s.db, gone)
    ensures CancelAll(s, ids) == Swept(s, gone)
    decreases |ids|
  {
    if ids == [] {
      assert gone == {};
      SweptNone(s);
    } else {
      var front, o := ids[..|ids| - 1], ids[|ids| - 1];
      var rest := set p | p in front;
      EnumeratesFront(ids, gone);
      AnyOrderSweeps(s, front, rest);
      SweptStep(s, rest, o);
    }
  }

  lemma {:induction false} SweptInv(s: State, ids: seq<int>, gone: set<int>)
    requires Inv(s) && Enumerates(ids, gone) && AllPending(s.db, gone)
    ensures Inv(CancelAll(s, ids))
    decreases |ids|
  {
    if ids != [] {
      var front, o := ids[..|ids| - 1], ids[|ids| - 1];
      EnumeratesFront(ids, gone);
      var rest := set p | p in front;
      SweptInv(s, front, rest);
      AnyOrderSweeps(s, front, rest);
      CancelInv(Swept(s, rest), o);
    }
  }

  lemma {:induction false} SweepsAll(s: State, cutoff: int, count: int, s': State)
    requires Inv(s) && Sweep(s, cutoff, count, s')
    ensures count == |Expired(s.db, cutoff)| && s' == Swept(s, Expired(s.db, cutoff)) && Inv(s')
  {
    var gone := Expired(s.db, cutoff);
    var ids: seq<int> :| Enumerates(ids, gone) && count == |ids| && s' == CancelAll(s, ids);
    EnumeratesSize(ids, gone);
    AnyOrderSweeps(s, ids, gone);
    SweptInv(s, ids, gone);
  }

  /** The expiry sweep is exact: it cancels the PENDING orders created before the cut-off and
    no other, reports how many they are, leaves none of them PENDING, returns their goods once
    to table and cache alike, and touches nothing else. */
  lemma {:induction false} SweepExact(s: State, cutoff: int, count: int, s': State)
    requires Inv(s) && Sweep(s, cutoff, count, s')
    ensures var gone := set o | o in s.db.orders && s.db.orders[o].status == Pending && s.db.orders[o].createdAt < cutoff;
      count == |gone| && s' == Swept(s, gone)
    ensures s'.db.orders.Keys == s.db.orders.Keys
    ensures forall o :: o in s.db.orders ==> (
      s'.db.orders[o] == if s.db.orders[o].status == Pending && s.db.orders[o].createdAt < cutoff
        then s.db.orders[o].(status := Cancelled) else s.db.orders[o])
    ensures forall o :: o in s'.db.orders && s'.db.orders[o].status == Pending ==> cutoff <= s'.db.orders[o].createdAt
    ensures Inv(s')
  {
    var gone := set o | o in s.db.orders && s.db.orders[o].status == Pending && s.db.orders[o].createdAt < cutoff;
    assert gone == Expired(s.db, cutoff);
    SweepsAll(s, cutoff, count, s');
  }

  lemma {:induction false} SweepBooks(s: State, ids: seq<int>, gone: set<int>, n: string, c: int)
    requires Inv(s) && Enumerates(ids, gone) && AllPending(s.db, gone)
    ensures Worth(CancelAll(s, ids).db, n) == Worth(s.db, n)
    ensures Supply(CancelAll(s, ids).db, c) == Supply(s.db, c)
    decreases |ids|
  {
    if ids != [] {
      var front, o := ids[..|ids| - 1], ids[|ids| - 1];
      EnumeratesFront(ids, gone);
      var rest := set p | p in front;
      SweepBooks(s, front, rest, n, c);
      SweptInv(s, front, rest);
      AnyOrderSweeps(s, front, rest);
      CancelBooks(Swept(s, rest), o, n, c);
    }
  }
}
