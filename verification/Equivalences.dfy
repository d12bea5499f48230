/** Different ways through the shop that must come to the same thing. */
module Equivalences {
  import opened Sums
  import opened Tables
  import opened Shop
  import opened Invariants
  import opened Payments
  import opened Ledger
  import opened Cancelling
  import opened Steps

  // ---- Paying at once and paying later ----

  lemma {:induction false} CanPayPlaced(s: State, uid: int, now: int, lines: map<int, Line>)
    ensures CanPay(PlaceOrder(s, uid, now), uid, lines) <==> CanPay(s, uid, lines)
  {
    var s1 := PlaceOrder(s, uid, now);
    assert s1.purse == s.purse && s1.db.users == s.db.users;
    if CanPay(s, uid, lines) {
      var n :| Found(s, uid, n) && Total(lines) <= BalanceOf(s, n);
      assert Found(s1, uid, n);
    }
    if CanPay(s1, uid, lines) {
      var n :| Found(s1, uid, n) && Total(lines) <= BalanceOf(s1, n);
      assert Found(s, uid, n);
    }
  }

  /** No party to the payment has line amounts of both signs. */
  ghost predicate OneSided(t: Database, uid: int, lines: map<int, Line>) {
    forall n :: Party(t, uid, lines, n) ==> SameSign(SalesLines(Owners(t), Amounts(lines), n))
  }

  lemma {:induction false} SettledAgree(s: State, uid: int, lines: map<int, Line>, n: string)
    requires n in s.db.users
    ensures Settled(s, uid, lines, PerLine, n) == Settled(s, uid, lines, Grouped, n)
      <==> SameSign(SalesLines(Owners(s.db), Amounts(lines), n))
  {
    SplitsAgree(Owners(s.db), Amounts(lines), n);
  }

  /** Two charges that differ only in how merchants are credited leave the same shop exactly
    when every party is one-sided. */
  lemma {:induction false} ChargesAgree(s: State, uid: int, lines: map<int, Line>)
    ensures Charge(s, uid, lines, PerLine) == Charge(s, uid, lines, Grouped) <==> OneSided(s.db, uid, lines)
  {
    var a, b := Charge(s, uid, lines, PerLine), Charge(s, uid, lines, Grouped);
    if a == b {
      forall n | Party(s.db, uid, lines, n) ensures SameSign(SalesLines(Owners(s.db), Amounts(lines), n)) {
        SettledAgree(s, uid, lines, n);
        assert n in a.purse && a.purse[n] == Settled(s, uid, lines, PerLine, n);
        assert b.purse[n] == Settled(s, uid, lines, Grouped, n);
      }
    }
    if OneSided(s.db, uid, lines) { OneSidedCharges(s, uid, lines); }
  }

  lemma {:induction false} OneSidedCharges(s: State, uid: int, lines: map<int, Line>)
    requires OneSided(s.db, uid, lines)
    ensures Charge(s, uid, lines, PerLine) == Charge(s, uid, lines, Grouped)
  {
    var a, b := Charge(s, uid, lines, PerLine), Charge(s, uid, lines, Grouped);
    forall n | Party(s.db, uid, lines, n)
      ensures Settled(s, uid, lines, PerLine, n) == Settled(s, uid, lines, Grouped, n)
    {
      SettledAgree(s, uid, lines, n);
    }
    assert a.purse == b.purse;
    assert a.db.users == b.db.users;
  }

  lemma {:induction false} MarkInjective(a: State, b: State, o: int)
    requires a.db.orders == b.db.orders
    ensures Mark(a, o, Paid) == Mark(b, o, Paid) <==> a == b
  {
  }

  lemma {:induction false} PayingPending(s: State, uid: int, o: int, lines: map<int, Line>)
    requires o in s.db.orders && s.db.orders[o].userId == uid
    requires s.db.orders[o].status == Pending && s.db.orders[o].lines == lines
    ensures PayOrder(s, uid, o).1 == Settlement <==> CanPay(s, uid, lines)
    ensures PayOrder(s, uid, o).1 == Settlement ==>
      (PayOrder(s, uid, o).0 == Mark(Charge(s, uid, lines, PerLine), o, Paid) <==> OneSided(s.db, uid, lines))
  {
    ChargesAgree(s, uid, lines);
    MarkInjective(Charge(s, uid, lines, PerLine), Charge(s, uid, lines, Grouped), o);
  }

  lemma {:induction false} PlacedAsPending(s: State, uid: int, now: int)
    ensures var id, placed := s.db.lastOrder + 1, PlaceOrder(s, uid, now);
      id in placed.db.orders && placed.db.orders[id] == OrderRow(uid, Pending, now, CartLines(s.db, uid))
  {
  }

  lemma {:induction false} PayingPlaced(s: State, uid: int, now: int)
    ensures var lines, id, placed := CartLines(s.db, uid), s.db.lastOrder + 1, PlaceOrder(s, uid, now);
      && (PayOrder(placed, uid, id).1 == Settlement <==> CanPay(s, uid, lines))
      && (PayOrder(placed, uid, id).1 == Settlement ==>
        (PayOrder(placed, uid, id).0 == Mark(Charge(placed, uid, lines, PerLine), id, Paid) <==> OneSided(placed.db, uid, lines)))
  {
    CanPayPlaced(s, uid, now, CartLines(s.db, uid));
    PlacedAsPending(s, uid, now);
    PayingPending(PlaceOrder(s, uid, now), uid, s.db.lastOrder + 1, CartLines(s.db, uid));
  }

  lemma {:induction false} OneSidedPlaced(s: State, uid: int, now: int, lines: map<int, Line>)
    ensures OneSided(PlaceOrder(s, uid, now).db, uid, lines) <==> OneSided(s.db, uid, lines)
  {
    var t, t' := s.db, PlaceOrder(s, uid, now).db;
    OwnersStay(t, t');
    forall n ensures Party(t', uid, lines, n) <==> Party(t, uid, lines, n) {}
  }

  /** `checkout(…, true)` succeeds exactly when `checkout(…, false)` followed by `payOrder` does. */
  lemma {:induction false} PayNowIffLater(s: State, uid: int, now: int)
    requires CartLines(s.db, uid).Keys != {} && WellStocked(s, CartLines(s.db, uid))
    ensures var lines, id, placed := CartLines(s.db, uid), s.db.lastOrder + 1, PlaceOrder(s, uid, now);
      && Checkout(s, uid, false, now, Placed(id), placed)
      && (PayOrder(placed, uid, id).1 == Settlement
          <==> exists paid :: Checkout(s, uid, true, now, Placed(id), paid))
  {
    var lines, id, placed := CartLines(s.db, uid), s.db.lastOrder + 1, PlaceOrder(s, uid, now);
    PayingPlaced(s, uid, now);
    if CanPay(s, uid, lines) {
      assert Checkout(s, uid, true, now, Placed(id), Mark(Charge(placed, uid, lines, PerLine), id, Paid));
    }
  }

  /** When both succeed they end in the same tables and caches exactly when no party to the
    payment has line amounts of both signs, although one credits merchants line by line and
    the other with one sum each. */
  lemma {:induction false} PayNowMeetsLater(s: State, uid: int, now: int, id: int, paid: State)
    requires Checkout(s, uid, true, now, Placed(id), paid)
    ensures PayOrder(PlaceOrder(s, uid, now), uid, id).1 == Settlement
    ensures PayOrder(PlaceOrder(s, uid, now), uid, id).0 == paid <==> OneSided(s.db, uid, CartLines(s.db, uid))
  {
    PayingPlaced(s, uid, now);
    OneSidedPlaced(s, uid, now, CartLines(s.db, uid));
  }

  lemma {:induction false} FineIsOneSided(s: State, uid: int)
    requires Inv(s)
    ensures OneSided(s.db, uid, CartLines(s.db, uid))
  {
    CartLinesFine(s, uid);
    AmountsNonneg(CartLines(s.db, uid));
  }

  /** In every state the shop can reach, paying now and paying later come to the same. */
  lemma {:induction false} PayNowIsPayLater(s: State, uid: int, now: int, id: int, paid: State, placed: State)
    requires Inv(s)
    requires Checkout(s, uid, true, now, Placed(id), paid) && Checkout(s, uid, false, now, Placed(id), placed)
    ensures PayOrder(placed, uid, id) == (paid, Settlement)
  {
    FineIsOneSided(s, uid);
    PayNowMeetsLater(s, uid, now, id, paid);
  }

  // ---- A refused checkout ----

  /** Whatever makes `checkout` return -1, the tables are as before. What look-ups see is too,
    unless an immediate checkout got as far as its payment and the buyer cannot pay: then the
    cached stock is lower by exactly the cart's quantities. */
  lemma {:induction false} RefusedCheckout(s: State, uid: int, pay: bool, now: int, r: CheckoutResult, s': State)
    requires Valid(s) && Checkout(s, uid, pay, now, r, s') && !r.Placed?
    ensures s'.db == s.db
    ensures forall n :: n in s.db.users ==> BalanceOf(s', n) == BalanceOf(s, n)
    ensures forall c :: c in s.db.commodities ==>
      ShelfOf(s', c) == ShelfOf(s, c).(storage := ShelfOf(s, c).storage
        - if r != SqlFault && FailsAtPayment(s, uid, pay) then Quantity(CartLines(s.db, uid), c) else 0)
  {
    if r != SqlFault { RefusedAtPayment(s, uid, pay, now, r, s'); }
  }

  // ---- Overselling ----

  /** A checkout puts goods on an order that were never taken from the shelf exactly where the
    stored stock is below the quantity ordered; the check before it passed because the cached
    stock was above the stored one. */
  lemma {:induction false} OversellsExactly(s: State, uid: int, pay: bool, now: int, id: int, s': State, c: int)
    requires BooksFine(s) && 1 <= uid <= s.db.lastUser && Checkout(s, uid, pay, now, Placed(id), s')
    ensures var lines := CartLines(s.db, uid);
      && (Supply(s.db, c) < Supply(s'.db, c) <==> c in lines && s.db.commodities[c].storage < lines[c].quantity)
      && (Supply(s.db, c) < Supply(s'.db, c) ==> Distance(s, c) < 0)
      && Supply(s.db, c) <= Supply(s'.db, c)
  {
    CheckoutBooks(s, uid, pay, now, Placed(id), s', "", c);
    CartLinesFine(s, uid);
  }

  // ---- Discounts in bulk and one by one ----

  function Discounted(s: State, hit: set<int>, d: real): State {
    State(
      s.db.(commodities := map c | c in s.db.commodities ::
        if c in hit then s.db.commodities[c].(discount := d) else s.db.commodities[c]),
      map c | c in s.shelf :: if c in hit then s.shelf[c].(discount := d) else s.shelf[c],
      s.purse)
  }

  /** `updateDiscount` on one commodity after the other. */
  function UpdateAll(s: State, ids: seq<int>, d: real): State {
    if ids == [] then s else
      var t, c := UpdateAll(s, ids[..|ids| - 1], d), ids[|ids| - 1];
      if c in t.shelf && c in t.db.commodities then Update(t, c, Discount(d)).0 else t
  }

  lemma {:induction false} UpdatesAddUp(s: State, ids: seq<int>, d: real)
    requires Valid(s) && Acceptable(Discount(d)) && forall c :: c in ids ==> c in s.shelf
    ensures UpdateAll(s, ids, d) == Discounted(s, (set c | c in ids), d)
    decreases |ids|
  {
    if ids == [] {
      assert Discounted(s, {}, d).db.commodities == s.db.commodities;
      assert Discounted(s, {}, d).shelf == s.shelf;
    } else {
      var front, c := ids[..|ids| - 1], ids[|ids| - 1];
      UpdatesAddUp(s, front, d);
      assert ids == front + [c];
      var hit, hit' := (set x | x in front), (set x | x in ids);
      assert hit' == hit + {c};
      var t, t' := Discounted(s, hit, d), Discounted(s, hit', d);
      assert c in s.shelf && c in s.db.commodities;
      assert t.db.commodities[c := ChangeRow(t.db.commodities[c], Discount(d))] == t'.db.commodities;
      assert t.shelf[c := ChangeShelf(t.shelf[c], Discount(d))] == t'.shelf;
    }
  }

  /** The bulk update answers with the number of goods of that merchant and type, changes each
    of them in table and cache, and does what updating them one by one does, in any order; it
    makes no difference whether one was cached before or is loaded afterwards. */
  lemma {:induction false} BatchIsOneByOne(s: State, merchant: string, kind: string, d: real, ids: seq<int>)
    requires Valid(s) && 0.0 <= d <= 1.0
    requires Enumerates(ids, set c | c in s.db.commodities && s.db.commodities[c].merchant == merchant && s.db.commodities[c].kind == kind)
    ensures BatchDiscount(s, merchant, kind, d).1 == |ids|
    ensures var hit := set c | c in ids;
      LoadShelves(BatchDiscount(s, merchant, kind, d).0, hit) == UpdateAll(LoadShelves(s, hit), ids, d)
  {
    var hit := set c | c in ids;
    assert hit == Matching(s.db, merchant, kind);
    EnumeratesSize(ids, hit);
    forall c | c in ids ensures c in LoadShelves(s, hit).shelf { assert c in hit; }
    UpdatesAddUp(LoadShelves(s, hit), ids, d);
    DiscountLoaded(s, hit, d);
  }

  lemma {:induction false} DiscountLoaded(s: State, hit: set<int>, d: real)
    ensures LoadShelves(Discounted(s, hit, d), hit) == Discounted(LoadShelves(s, hit), hit, d)
  {
    var a, b := LoadShelves(Discounted(s, hit, d), hit).shelf, Discounted(LoadShelves(s, hit), hit, d).shelf;
    assert Discounted(s, hit, d).db.commodities.Keys == s.db.commodities.Keys;
    assert a.Keys == b.Keys;
    forall c | c in a ensures a[c] == b[c] {}
  }
}
