/** What each code on the wire does to the shop (src/Server.cpp, include/Protocol.h), without
  naming the request it is routed to. */
module Codes {
  import opened Tables
  import opened Shop
  import opened Requests
  import opened Invariants
  import opened Routing
  import opened Effects

  ghost predicate DoesRegister(t: Database, w: Wire, r: Reply, t': Database, fault: bool) {
    if (w.kind == "Merchant" || w.kind == "Consumer") && 6 <= |w.password| <= 16
    then Registers(t, if w.kind == "Merchant" then Merchant else Consumer, w.username, w.secret, r, t', fault)
    else r == Refused && t' == t
  }

  ghost predicate MerchantDone(t: Database, shelf: map<int, Shelf>, w: Wire, r: Reply, t': Database, shelf': map<int, Shelf>, fault: bool)
    requires w.username in t.users
  {
    var n := w.username;
    if w.operation == 2 then Recharges(t, n, w.amount, r, t') && shelf' == shelf
    else if w.operation == 3 then AddsGood(t, shelf, n, w.kind, w.name, w.price, w.quantity, r, t', shelf', fault)
    else if w.operation == 5 then
      SetsPassword(t, n, if 6 <= |w.password| <= 16 then Some(w.secret) else None, r, t') && shelf' == shelf
    else if w.operation == 41 then SetsGood(t, shelf, n, w.name, Price(w.price), r, t', shelf', fault)
    else if w.operation == 42 then SetsGood(t, shelf, n, w.name, Stock(w.quantity), r, t', shelf', fault)
    else if w.operation == 43 then SetsGood(t, shelf, n, w.name, Discount(w.amount), r, t', shelf', fault)
    else w.operation == 44 && DiscountsKind(t, shelf, n, w.kind, w.amount, r, t', shelf', fault)
  }

  ghost predicate ConsumerDone(t: Database, shelf: map<int, Shelf>, w: Wire, r: Reply, t': Database, shelf': map<int, Shelf>)
    requires w.username in t.users
  {
    var n := w.username;
    if w.operation == 2 then Recharges(t, n, w.amount, r, t') && shelf' == shelf
    else
      && w.operation == 5
      && SetsPassword(t, n, if 6 <= |w.password| <= 16 then Some(w.secret) else None, r, t') && shelf' == shelf
  }

  ghost predicate CartDone(t: Database, shelf: map<int, Shelf>, w: Wire, now: int, r: Reply,
                           t': Database, shelf': map<int, Shelf>, fault: bool)
    requires w.username in t.users
  {
    var n := w.username;
    if w.operation == 2 then AddsItem(t, shelf, n, w.name, w.quantity, r, t', shelf', fault)
    else if w.operation == 3 then RemovesItem(t, shelf, n, w.name, r, t', shelf', fault)
    else if w.operation == 4 then SetsQuantity(t, shelf, n, w.name, w.quantity, r, t', shelf', fault)
    else w.operation == 5 && r.Ordered? && ChecksOut(t, shelf, n, w.immediate, now, r.checkout, t', shelf', fault)
  }

  ghost predicate OrderDone(t: Database, shelf: map<int, Shelf>, w: Wire, r: Reply, t': Database, shelf': map<int, Shelf>)
    requires w.username in t.users
  {
    var n := w.username;
    if w.operation == 1 then r.Payment? && PaysOrder(t, n, w.order, r.payment, t') && shelf' == shelf
    else w.operation == 2 && CancelsOrder(t, shelf, n, w.order, r, t', shelf')
  }

  /** Codes that only look things up change no row and no cached object. */
  ghost predicate DoesMerchant(t: Database, shelf: map<int, Shelf>, w: Wire, r: Reply, t': Database, shelf': map<int, Shelf>, fault: bool) {
    if w.operation !in {2, 3, 5, 41, 42, 43, 44} then t' == t && ShelfKept(shelf, shelf')
    else
      || TurnedAway(t, shelf, w.username, Merchant, r, t', shelf')
      || (IsKind(t, w.username, Merchant) && MerchantDone(t, shelf, w, r, t', shelf', fault))
  }

  ghost predicate DoesConsumer(t: Database, shelf: map<int, Shelf>, w: Wire, r: Reply, t': Database, shelf': map<int, Shelf>) {
    if w.operation !in {2, 5} then t' == t && ShelfKept(shelf, shelf')
    else
      || TurnedAway(t, shelf, w.username, Consumer, r, t', shelf')
      || (IsKind(t, w.username, Consumer) && ConsumerDone(t, shelf, w, r, t', shelf'))
  }

  ghost predicate DoesCart(t: Database, shelf: map<int, Shelf>, w: Wire, now: int, r: Reply,
                           t': Database, shelf': map<int, Shelf>, fault: bool) {
    if w.operation !in {2, 3, 4, 5} then t' == t && ShelfKept(shelf, shelf')
    else
      || TurnedAway(t, shelf, w.username, Consumer, r, t', shelf')
      || (IsKind(t, w.username, Consumer) && CartDone(t, shelf, w, now, r, t', shelf', fault))
  }

  ghost predicate DoesOrder(t: Database, shelf: map<int, Shelf>, w: Wire, r: Reply, t': Database, shelf': map<int, Shelf>) {
    if w.operation !in {1, 2} then t' == t && ShelfKept(shelf, shelf')
    else
      || TurnedAway(t, shelf, w.username, Consumer, r, t', shelf')
      || (IsKind(t, w.username, Consumer) && OrderDone(t, shelf, w, r, t', shelf'))
  }

  /** The table of codes. */
  ghost predicate Does(t: Database, shelf: map<int, Shelf>, w: Wire, now: int, r: Reply,
                       t': Database, shelf': map<int, Shelf>, fault: bool) {
    if w.action == "register" then DoesRegister(t, w, r, t', fault) && shelf' == shelf
    else if w.action == "merchantOperation" then DoesMerchant(t, shelf, w, r, t', shelf', fault)
    else if w.action == "consumerOperation" then DoesConsumer(t, shelf, w, r, t', shelf')
    else if w.action == "cartOperation" then DoesCart(t, shelf, w, now, r, t', shelf', fault)
    else if w.action == "orderOperation" then DoesOrder(t, shelf, w, r, t', shelf')
    else if w.action == "login" || w.action == "searchCommodities" then r == Ok && t' == t && ShelfKept(shelf, shelf')
    else r == Refused && t' == t && shelf' == shelf
  }

  lemma {:induction false} FillKeeps(s: State, ids: set<int>, names: set<string>, r: Reply, s': State, fault: bool)
    requires Answers(s, Fill(ids, names), r, s', fault)
    ensures r == Ok && s'.db == s.db && ShelfKept(s.shelf, s'.shelf)
  {
  }

  lemma {:induction false} RegisterDoes(s: State, w: Wire, now: int, ids: set<int>, r: Reply, s': State, fault: bool)
    requires w.action == "register" && Answers(s, Route(w, now, ids), r, s', fault)
    ensures DoesRegister(s.db, w, r, s'.db, fault) && s'.shelf == s.shelf
  {
  }

  lemma {:induction false} LooksKeep(s: State, w: Wire, now: int, ids: set<int>, r: Reply, s': State, fault: bool)
    requires !Writes(w) && w.action in ACTIONS && w.action != "register" && Answers(s, Route(w, now, ids), r, s', fault)
    ensures r == Ok && s'.db == s.db && ShelfKept(s.shelf, s'.shelf)
  {
    RoutesApart(w, now, ids);
    FillKeeps(s, if Lists(w) then ids else {}, Asker(w), r, s', fault);
  }

  lemma {:induction false} MerchantCode(w: Wire, op: Op, t: Database, shelf: map<int, Shelf>, r: Reply,
                                        t': Database, shelf': map<int, Shelf>, fault: bool)
    requires RouteMerchant(w, {}) == By(w.username, op) && w.username in t.users && OpDone(t, shelf, w.username, op, r, t', shelf', fault)
    ensures MerchantDone(t, shelf, w, r, t', shelf', fault)
  {
  }

  lemma {:induction false} MerchantWrites(s: State, w: Wire, op: Op, r: Reply, s': State, fault: bool)
    requires BooksFine(s) && RouteMerchant(w, {}) == By(w.username, op) && Role(op) == Merchant
    requires Answers(s, By(w.username, op), r, s', fault)
    ensures TurnedAway(s.db, s.shelf, w.username, Merchant, r, s'.db, s'.shelf)
      || (IsKind(s.db, w.username, Merchant) && MerchantDone(s.db, s.shelf, w, r, s'.db, s'.shelf, fault))
  {
    UserEffect(s, w.username, op, r, s', fault);
    if IsKind(s.db, w.username, Merchant) && OpDone(s.db, s.shelf, w.username, op, r, s'.db, s'.shelf, fault) {
      MerchantCode(w, op, s.db, s.shelf, r, s'.db, s'.shelf, fault);
    }
  }

  lemma {:induction false} MerchantDoes(s: State, w: Wire, now: int, ids: set<int>, r: Reply, s': State, fault: bool)
    requires BooksFine(s) && w.action == "merchantOperation" && Answers(s, Route(w, now, ids), r, s', fault)
    ensures DoesMerchant(s.db, s.shelf, w, r, s'.db, s'.shelf, fault)
  {
    if Writes(w) {
      MerchantWrites(s, w, RouteMerchant(w, {}).op, r, s', fault);
    } else {
      LooksKeep(s, w, now, ids, r, s', fault);
    }
  }

  lemma {:induction false} ConsumerCode(w: Wire, now: int, op: Op, t: Database, shelf: map<int, Shelf>, r: Reply,
                                        t': Database, shelf': map<int, Shelf>, fault: bool)
    requires w.operation in {2, 5} && RouteConsumer(w, now, {}) == By(w.username, op)
    requires w.username in t.users && OpDone(t, shelf, w.username, op, r, t', shelf', fault)
    ensures ConsumerDone(t, shelf, w, r, t', shelf')
  {
  }

  lemma {:induction false} ConsumerDoes(s: State, w: Wire, now: int, ids: set<int>, r: Reply, s': State, fault: bool)
    requires BooksFine(s) && w.action == "consumerOperation" && Answers(s, Route(w, now, ids), r, s', fault)
    ensures DoesConsumer(s.db, s.shelf, w, r, s'.db, s'.shelf)
  {
    if Writes(w) {
      var op := RouteConsumer(w, now, {}).op;
      UserEffect(s, w.username, op, r, s', fault);
      if IsKind(s.db, w.username, Consumer) && OpDone(s.db, s.shelf, w.username, op, r, s'.db, s'.shelf, fault) {
        ConsumerCode(w, now, op, s.db, s.shelf, r, s'.db, s'.shelf, fault);
      }
    } else {
      LooksKeep(s, w, now, ids, r, s', fault);
    }
  }

  lemma {:induction false} CartCode(w: Wire, now: int, op: Op, t: Database, shelf: map<int, Shelf>, r: Reply,
                                    t': Database, shelf': map<int, Shelf>, fault: bool)
    requires RouteCart(w, now) == By(w.username, op) && w.username in t.users && OpDone(t, shelf, w.username, op, r, t', shelf', fault)
    ensures CartDone(t, shelf, w, now, r, t', shelf', fault)
  {
  }

  lemma {:induction false} CartDoes(s: State, w: Wire, now: int, ids: set<int>, r: Reply, s': State, fault: bool)
    requires BooksFine(s) && w.action == "cartOperation" && Answers(s, Route(w, now, ids), r, s', fault)
    ensures DoesCart(s.db, s.shelf, w, now, r, s'.db, s'.shelf, fault)
  {
    if Writes(w) {
      var op := RouteCart(w, now).op;
      UserEffect(s, w.username, op, r, s', fault);
      if IsKind(s.db, w.username, Consumer) && OpDone(s.db, s.shelf, w.username, op, r, s'.db, s'.shelf, fault) {
        CartCode(w, now, op, s.db, s.shelf, r, s'.db, s'.shelf, fault);
      }
    } else {
      LooksKeep(s, w, now, ids, r, s', fault);
    }
  }

  lemma {:induction false} OrderCode(w: Wire, op: Op, t: Database, shelf: map<int, Shelf>, r: Reply,
                                     t': Database, shelf': map<int, Shelf>, fault: bool)
    requires RouteOrder(w) == By(w.username, op) && w.username in t.users && OpDone(t, shelf, w.username, op, r, t', shelf', fault)
    ensures OrderDone(t, shelf, w, r, t', shelf')
  {
  }

  lemma {:induction false} OrderDoes(s: State, w: Wire, now: int, ids: set<int>, r: Reply, s': State, fault: bool)
    requires BooksFine(s) && w.action == "orderOperation" && Answers(s, Route(w, now, ids), r, s', fault)
    ensures DoesOrder(s.db, s.shelf, w, r, s'.db, s'.shelf)
  {
    if Writes(w) {
      var op := RouteOrder(w).op;
      UserEffect(s, w.username, op, r, s', fault);
      if IsKind(s.db, w.username, Consumer) && OpDone(s.db, s.shelf, w.username, op, r, s'.db, s'.shelf, fault) {
        OrderCode(w, op, s.db, s.shelf, r, s'.db, s'.shelf, fault);
      }
    } else {
      LooksKeep(s, w, now, ids, r, s', fault);
    }
  }

  /** Whatever a client sends, the shop does what the table of codes says: `now` is the clock,
    `ids` are the rows a search found. */
  lemma {:induction false} MessageDoes(s: State, w: Wire, now: int, ids: set<int>, r: Reply, s': State, fault: bool)
    requires BooksFine(s) && Answers(s, Route(w, now, ids), r, s', fault)
    ensures Does(s.db, s.shelf, w, now, r, s'.db, s'.shelf, fault)
  {
    if w.action == "register" {
      RegisterDoes(s, w, now, ids, r, s', fault);
    } else if w.action == "merchantOperation" {
      MerchantDoes(s, w, now, ids, r, s', fault);
    } else if w.action == "consumerOperation" {
      ConsumerDoes(s, w, now, ids, r, s', fault);
    } else if w.action == "cartOperation" {
      CartDoes(s, w, now, ids, r, s', fault);
    } else if w.action == "orderOperation" {
      OrderDoes(s, w, now, ids, r, s', fault);
    } else if w.action == "login" {
      FillKeeps(s, {}, {w.username}, r, s', fault);
    } else if w.action == "searchCommodities" {
      FillKeeps(s, ids, {}, r, s', fault);
    }
  }
}
