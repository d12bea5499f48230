/** The SQLite connection: the tables as this connection sees them, and one transaction.

  Any statement whose result the code looks at may fail. `faults` counts the failures that no
  constraint of the schema explains, so that a caller can say it failed for such a reason only. */
module Sqlite {
  import opened Tables
  import opened Shop

  class Connection {
    var t: Database
    var saved: Database  // what ROLLBACK puts back
    var open: bool       // a transaction is running
    ghost var faults: nat

    constructor (tables: Database)
      ensures t == tables && !open
    {
      t, saved, open, faults := tables, tables, false, 0;
    }

    /** Whether the next statement runs. */
    method Runs() returns (ok: bool)
      modifies this`faults
      ensures faults == old(faults) + if ok then 0 else 1
    {
      ok := *;
      if !ok { faults := faults + 1; }
    }

    method Begin()
      requires !open
      modifies this`saved, this`open
      ensures open && saved == t == old(t)
    {
      saved, open := t, true;
    }

    /** BEGIN where the caller checks the result. */
    method TryBegin() returns (ok: bool)
      requires !open
      modifies this`saved, this`open, this`faults
      ensures open == ok && faults == old(faults) + if ok then 0 else 1
      ensures ok ==> saved == t
    {
      ok := Runs();
      if ok { Begin(); }
    }

    method Rollback()
      requires open
      modifies this`t, this`open
      ensures !open && t == saved
    {
      t, open := saved, false;
    }

    method Commit()
      requires open
      modifies this`open
      ensures !open
    {
      open := false;
    }

    /** INSERT INTO users; refused, at the latest, by UNIQUE(username). */
    method InsertUser(username: string, kind: UserKind, secret: string) returns (ok: bool, id: int)
      modifies this`t, this`faults
      ensures old(faults) <= faults && (!ok ==> username in old(t).users || old(faults) < faults)
      ensures ok ==> username !in old(t).users && id == old(t).lastUser + 1 && faults == old(faults)
      ensures t == if !ok then old(t) else
        old(t).(users := old(t).users[username := UserRow(id, kind, 0.0, secret)], lastUser := id)
    {
      id := t.lastUser + 1;
      ok := Runs();
      ok := ok && username !in t.users;
      if ok { t := t.(users := t.users[username := UserRow(id, kind, 0.0, secret)], lastUser := id); }
    }

    /** INSERT INTO commodities; refused, at the latest, by UNIQUE(name). */
    method InsertCommodity(row: CommodityRow) returns (ok: bool, id: int)
      modifies this`t, this`faults
      ensures old(faults) <= faults && (!ok ==> Named(old(t), row.name).Some? || old(faults) < faults)
      ensures ok ==> Named(old(t), row.name).None? && id == old(t).lastCommodity + 1 && faults == old(faults)
      ensures t == if ok then old(t).(commodities := old(t).commodities[id := row], lastCommodity := id) else old(t)
    {
      id := t.lastCommodity + 1;
      ok := Runs();
      if c :| c in t.commodities && t.commodities[c].name == row.name { ok := false; }
      if ok { t := t.(commodities := t.commodities[id := row], lastCommodity := id); }
    }

    /** INSERT INTO orders; the new row id comes from the AUTOINCREMENT counter. */
    method InsertOrder(uid: int, now: int) returns (ok: bool, id: int)
      modifies this`t, this`faults
      ensures faults == old(faults) + if ok then 0 else 1
      ensures !ok ==> t == old(t)
      ensures ok ==> id == old(t).lastOrder + 1
      ensures ok ==> t == old(t).(orders := old(t).orders[id := OrderRow(uid, Pending, now, map[])], lastOrder := id)
    {
      id := t.lastOrder + 1;
      ok := Runs();
      if ok { t := t.(orders := t.orders[id := OrderRow(uid, Pending, now, map[])], lastOrder := id); }
    }

    /** INSERT INTO order_items; a second row with the same key violates the primary key. */
    method InsertItem(o: int, c: int, line: Line) returns (ok: bool)
      requires o in t.orders
      modifies this`t, this`faults
      ensures old(faults) <= faults && (!ok ==> c in old(t).orders[o].lines || old(faults) < faults)
      ensures !ok ==> t == old(t)
      ensures ok ==> c !in old(t).orders[o].lines && faults == old(faults)
      ensures ok ==> t == old(t).(orders := old(t).orders[o := old(t).orders[o].(lines := old(t).orders[o].lines[c := line])])
    {
      ok := Runs();
      ok := ok && c !in t.orders[o].lines;
      if ok { t := t.(orders := t.orders[o := t.orders[o].(lines := t.orders[o].lines[c := line])]); }
    }

    /** The guarded stock UPDATE: success says the statement ran, not that a row matched. */
    method TakeStock(c: int, quantity: int) returns (ok: bool)
      modifies this`t, this`faults
      ensures faults == old(faults) + if ok then 0 else 1
      ensures !ok ==> t == old(t)
      ensures ok ==> t == old(t).(commodities := Taken(old(t).commodities, map[c := Line(quantity, 0.0)]))
    {
      ok := Runs();
      if ok {
        if c in t.commodities && quantity <= t.commodities[c].storage {
          t := t.(commodities := t.commodities[c := t.commodities[c].(storage := t.commodities[c].storage - quantity)]);
        }
        assert t.commodities == Taken(old(t).commodities, map[c := Line(quantity, 0.0)]);
      }
    }

    method ReturnStock(c: int, quantity: int)
      modifies this`t
      ensures t == old(t).(commodities := Returned(old(t).commodities, map[c := Line(quantity, 0.0)]))
    {
      if c in t.commodities {
        t := t.(commodities := t.commodities[c := t.commodities[c].(storage := t.commodities[c].storage + quantity)]);
      }
      assert t.commodities == Returned(old(t).commodities, map[c := Line(quantity, 0.0)]);
    }

    method ClearCart(uid: int)
      modifies this`t
      ensures t == old(t).(carts := old(t).carts - {uid})
    {
      t := t.(carts := t.carts - {uid});
    }

    /** INSERT INTO cart_items … ON CONFLICT DO UPDATE SET quantity = quantity + … */
    method AddItem(uid: int, c: int, quantity: int) returns (ok: bool)
      modifies this`t, this`faults
      ensures faults == old(faults) + if ok then 0 else 1
      ensures t == if !ok then old(t) else old(t).(carts := old(t).carts[uid := CartOf(old(t), uid)[
        c := (if c in CartOf(old(t), uid) then CartOf(old(t), uid)[c] else 0) + quantity]])
    {
      ok := Runs();
      var cart := CartOf(t, uid);
      if ok { t := t.(carts := t.carts[uid := cart[c := (if c in cart then cart[c] else 0) + quantity]]); }
    }

    /** DELETE FROM cart_items WHERE user_id = … AND commodity_id = … */
    method DeleteItem(uid: int, c: int) returns (ok: bool)
      modifies this`t, this`faults
      ensures faults == old(faults) + if ok then 0 else 1
      ensures t == if ok && uid in old(t).carts then old(t).(carts := old(t).carts[uid := old(t).carts[uid] - {c}]) else old(t)
    {
      ok := Runs();
      if ok && uid in t.carts { t := t.(carts := t.carts[uid := t.carts[uid] - {c}]); }
    }

    /** UPDATE cart_items SET quantity = … ; no row, no change. */
    method ChangeItem(uid: int, c: int, quantity: int) returns (ok: bool)
      modifies this`t, this`faults
      ensures faults == old(faults) + if ok then 0 else 1
      ensures t == if ok && c in CartOf(old(t), uid) then old(t).(carts := old(t).carts[uid := old(t).carts[uid][c := quantity]])
        else old(t)
    {
      ok := Runs();
      if ok && c in CartOf(t, uid) { t := t.(carts := t.carts[uid := t.carts[uid][c := quantity]]); }
    }

    method SetStatus(o: int, status: Status)
      modifies this`t
      ensures State(t, map[], map[]) == Mark(State(old(t), map[], map[]), o, status)
    {
      if o in t.orders { t := t.(orders := t.orders[o := t.orders[o].(status := status)]); }
    }

    /** UPDATE users SET balance = … WHERE id = … */
    method SetBalance(id: int, balance: real)
      modifies this`t
      ensures t == old(t).(users := map n | n in old(t).users ::
        if old(t).users[n].id == id then old(t).users[n].(balance := balance) else old(t).users[n])
    {
      t := t.(users := map n | n in t.users ::
        if t.users[n].id == id then t.users[n].(balance := balance) else t.users[n]);
    }

    /** UPDATE users SET password = … WHERE id = … */
    method SetPassword(id: int, secret: string)
      modifies this`t
      ensures t == old(t).(users := map n | n in old(t).users ::
        if old(t).users[n].id == id then old(t).users[n].(password := secret) else old(t).users[n])
    {
      t := t.(users := map n | n in t.users ::
        if t.users[n].id == id then t.users[n].(password := secret) else t.users[n]);
    }

    /** UPDATE commodities SET discount = … WHERE merchant = … AND type = …; answers with the
      number of rows changed. */
    method DiscountMatching(merchant: string, kind: string, d: real) returns (ok: bool, count: int)
      modifies this`t, this`faults
      ensures faults == old(faults) + if ok then 0 else 1
      ensures !ok ==> t == old(t)
      ensures ok ==> count == |set c | c in old(t).commodities && old(t).commodities[c].merchant == merchant && old(t).commodities[c].kind == kind|
      ensures ok ==> t == old(t).(commodities := map c | c in old(t).commodities ::
        if old(t).commodities[c].merchant == merchant && old(t).commodities[c].kind == kind
        then old(t).commodities[c].(discount := d) else old(t).commodities[c])
    {
      ok := Runs();
      var hit := set c | c in t.commodities && t.commodities[c].merchant == merchant && t.commodities[c].kind == kind;
      count := |hit|;
      if ok {
        t := t.(commodities := map c | c in t.commodities ::
          if c in hit then t.commodities[c].(discount := d) else t.commodities[c]);
      }
    }

    /** UPDATE commodities SET … WHERE id = … for one column. */
    method SetRow(c: int, row: CommodityRow) returns (ok: bool)
      requires c in t.commodities
      modifies this`t, this`faults
      ensures faults == old(faults) + if ok then 0 else 1
      ensures t == if ok then old(t).(commodities := old(t).commodities[c := row]) else old(t)
    {
      ok := Runs();
      if ok { t := t.(commodities := t.commodities[c := row]); }
    }
  }
}
