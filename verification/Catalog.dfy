/** Commodity objects and their two-index cache (src/Commodity.cpp, include/Commodity.h). */
module Catalog {
  import opened Sums
  import opened Tables
  import opened Shop
  import opened Sqlite

  class Commodity {
    const id: int
    const name: string
    const kind: string
    const merchant: string
    var basePrice: real
    var discount: real
    var storage: int

    constructor (id: int, row: CommodityRow)
      ensures this.id == id && Carries(row) && OnShelf() == FromRow(row)
    {
      this.id, name, kind, merchant := id, row.name, row.kind, row.merchant;
      basePrice, discount, storage := row.basePrice, row.discount, row.storage;
    }

    /** The fields that never change are those of the row. */
    predicate Carries(row: CommodityRow) {
      row.name == name && row.kind == kind && row.merchant == merchant
    }

    function OnShelf(): Shelf
      reads this
    {
      Shelf(basePrice, discount, storage)
    }

    method SetBasePrice(price: real)
      modifies this
      ensures OnShelf() == old(OnShelf()).(basePrice := price)
    { basePrice := price; }

    method SetDiscount(d: real)
      modifies this
      ensures OnShelf() == old(OnShelf()).(discount := d)
    { discount := d; }

    method SetStorage(n: int)
      modifies this
      ensures OnShelf() == old(OnShelf()).(storage := n)
    { storage := n; }
  }

  /** The bulk discount, told row by row and object by object. */
  lemma {:induction false} BatchIs(s: State, merchant: string, kind: string, d: real, count: int, t': Database, shelf': map<int, Shelf>)
    requires 0.0 <= d <= 1.0 && shelf'.Keys == s.shelf.Keys <= s.db.commodities.Keys && s.purse == map[]
    requires count == |set c | c in s.db.commodities && s.db.commodities[c].merchant == merchant && s.db.commodities[c].kind == kind|
    requires t' == s.db.(commodities := map c | c in s.db.commodities ::
      if s.db.commodities[c].merchant == merchant && s.db.commodities[c].kind == kind
      then s.db.commodities[c].(discount := d) else s.db.commodities[c])
    requires forall c :: c in s.shelf ==> (
      shelf'[c] == if s.db.commodities[c].merchant == merchant && s.db.commodities[c].kind == kind
        then s.shelf[c].(discount := d) else s.shelf[c])
    ensures (State(t', shelf', map[]), count) == BatchDiscount(s, merchant, kind, d)
  {
    assert Matching(s.db, merchant, kind)
      == set c | c in s.db.commodities && s.db.commodities[c].merchant == merchant && s.db.commodities[c].kind == kind;
    var (e, n) := BatchDiscount(s, merchant, kind, d);
    forall c | c in s.shelf ensures shelf'[c] == e.shelf[c] { assert c in s.db.commodities.Keys; }
    assert shelf' == e.shelf && t'.commodities == e.db.commodities;
    assert e == State(s.db.(commodities := e.db.commodities), e.shelf, s.purse) && n == count;
  }

  class CommodityManager {
    const db: Connection
    var nameMap: map<string, Commodity>
    var idMap: map<int, Commodity>

    constructor (db: Connection)
      ensures this.db == db && nameMap == map[] && idMap == map[]
    {
      this.db := db;
      nameMap, idMap := map[], map[];
    }

    /** Both indexes hold exactly the same objects, each under its own name and its own id. */
    ghost predicate Coherent()
      reads this
    {
      && (forall n :: n in nameMap ==> nameMap[n].name == n && nameMap[n].id in idMap && idMap[nameMap[n].id] == nameMap[n])
      && (forall i :: i in idMap ==> idMap[i].id == i && idMap[i].name in nameMap && nameMap[idMap[i].name] == idMap[i])
    }

    /** And each object stands for the row with its id. */
    ghost predicate Fits(t: Database)
      reads this
    {
      && Coherent()
      && CommoditiesSound(t.commodities, t.lastCommodity)
      && forall i :: i in idMap ==> i in t.commodities && idMap[i].Carries(t.commodities[i])
    }

    ghost predicate Valid()
      reads this, db
    {
      Fits(db.t)
    }

    ghost function Shelves(): map<int, Shelf>
      reads this, idMap.Values
    {
      map i | i in idMap :: idMap[i].OnShelf()
    }

    lemma {:induction false} ShelvesKnown()
      requires Valid()
      ensures Shelves().Keys <= db.t.commodities.Keys
    {
      forall i | i in Shelves() ensures i in db.t.commodities { assert i in idMap; }
    }

    /** Every entry is still there, with the same object. */
    static predicate Keeps<K(==)>(a: map<K, Commodity>, b: map<K, Commodity>) {
      forall k :: k in a ==> k in b && b[k] == a[k]
    }

    /** Entries are only ever added, and with objects nobody else holds. */
    twostate predicate Grows()
      reads this
    {
      && Keeps(old(idMap), idMap) && Keeps(old(nameMap), nameMap)
      && (forall c :: c in idMap.Values && c !in old(idMap.Values) ==> fresh(c))
    }

    /** Inserts a freshly loaded object unless its name is taken; answers with the one cached. */
    method CacheCommodity(c: Commodity) returns (r: Commodity)
      requires Valid() && c.id in db.t.commodities && c.Carries(db.t.commodities[c.id])
      modifies this
      ensures Valid() && r.id == c.id && r.id in idMap && idMap[r.id] == r && r.name == c.name
      ensures c.id in old(idMap) ==> nameMap == old(nameMap) && idMap == old(idMap)
      ensures c.id !in old(idMap) ==> r == c && nameMap == old(nameMap)[c.name := c] && idMap == old(idMap)[c.id := c]
    {
      if c.name in nameMap {
        r := nameMap[c.name];
        assert r.id in idMap && idMap[r.id] == r;
        return;
      }
      idMap := idMap[c.id := c];
      nameMap := nameMap[c.name := c];
      r := c;
    }

    /** A new object for a row, put into the cache. */
    method CacheRow(id: int) returns (c: Commodity)
      requires Valid() && id in db.t.commodities
      modifies this
      ensures Valid() && Grows()
      ensures c.id == id && id in idMap && idMap[id] == c
      ensures Shelves() == WithShelves(old(Shelves()), db.t.commodities, {id})
    {
      var loaded := new Commodity(id, db.t.commodities[id]);
      c := CacheCommodity(loaded);
      ShelvesGrow(db.t.commodities, c);
    }

    /** Objects that stay as they are, plus perhaps one that carries its row's values. */
    twostate lemma ShelvesGrow(rows: map<int, CommodityRow>, new c: Commodity)
      requires if c.id in old(idMap) then idMap == old(idMap) else idMap == old(idMap)[c.id := c] && c.id in rows && c.OnShelf() == FromRow(rows[c.id])
      requires forall i :: i in old(idMap) ==> idMap[i].OnShelf() == old(idMap[i].OnShelf())
      ensures Shelves() == WithShelves(old(Shelves()), rows, {c.id})
    {
      forall i | i in idMap ensures Shelves()[i] == if i in old(idMap) then old(Shelves())[i] else FromRow(rows[i]) {}
    }

    method LoadById(id: int) returns (c: Commodity?)
      requires Valid() && id !in idMap
      modifies this
      ensures Valid() && Grows()
      ensures c == null <==> id !in db.t.commodities
      ensures c != null ==> c.id == id && id in idMap && idMap[id] == c
      ensures Shelves() == WithShelves(old(Shelves()), db.t.commodities, {id})
    {
      if id in db.t.commodities {
        c := CacheRow(id);
      } else {
        c := null;
        assert Shelves() == old(Shelves());
      }
    }

    method GetCommodityById(id: int) returns (c: Commodity?)
      requires Valid()
      modifies if id in idMap then {} else {this}
      ensures Valid() && Grows()
      ensures c == null <==> id !in db.t.commodities
      ensures c != null ==> c.id == id && id in idMap && idMap[id] == c
      ensures Shelves() == WithShelves(old(Shelves()), db.t.commodities, {id})
    {
      if id in idMap {
        c := idMap[id];
        assert Shelves() == old(Shelves());
        return;
      }
      c := LoadById(id);
    }

    method LoadByName(name: string) returns (c: Commodity?)
      requires Valid() && name !in nameMap
      modifies this
      ensures Valid() && Grows()
      ensures c == null <==> Named(db.t, name).None?
      ensures c != null ==> Named(db.t, name) == Some(c.id) && c.id in idMap && idMap[c.id] == c
      ensures Shelves() == WithShelves(old(Shelves()), db.t.commodities, if c == null then {} else {c.id})
    {
      if id :| id in db.t.commodities && db.t.commodities[id].name == name {
        c := CacheRow(id);
      } else {
        assert Shelves() == old(Shelves());
        c := null;
      }
    }

    method GetCommodityByName(name: string) returns (c: Commodity?)
      requires Valid()
      modifies if name in nameMap then {} else {this}
      ensures Valid() && Grows()
      ensures name in old(nameMap) ==> c == nameMap[name]
      ensures c == null <==> Named(db.t, name).None?
      ensures c != null ==> Named(db.t, name) == Some(c.id) && c.id in idMap && idMap[c.id] == c
      ensures Shelves() == WithShelves(old(Shelves()), db.t.commodities, if c == null then {} else {c.id})
    {
      if name in nameMap {
        c := nameMap[name];
        assert c.id in idMap && idMap[c.id] == c && c.Carries(db.t.commodities[c.id]);
        assert Shelves() == old(Shelves());
        return;
      }
      c := LoadByName(name);
    }

    ghost predicate Cached(c: Commodity)
      reads this
    {
      c.id in idMap && idMap[c.id] == c
    }

    /** One result row of a search: cached unless its name already is. */
    method LoadNext(id: int, ghost shelf: map<int, Shelf>, ghost seen: set<int>) returns (c: Commodity)
      requires Valid() && id in db.t.commodities && Shelves() == WithShelves(shelf, db.t.commodities, seen)
      modifies this
      ensures Valid() && Grows() && c.id == id && Cached(c)
      ensures Shelves() == WithShelves(shelf, db.t.commodities, seen + {id})
    {
      c := CacheRow(id);
      WithShelvesStep(shelf, db.t.commodities, seen, {id});
    }

    /** Searches and merchant listings: every row the query returns is cached in passing, and
      the answer consists of cached objects. */
    method LoadAll(hits: set<int>) returns (found: seq<Commodity>, ghost ids: seq<int>)
      requires Valid() && hits <= db.t.commodities.Keys
      modifies this
      ensures Valid() && Grows()
      ensures Enumerates(ids, hits) && |found| == |ids|
      ensures forall k :: 0 <= k < |ids| ==> found[k].id == ids[k] && Cached(found[k])
      ensures Shelves() == WithShelves(old(Shelves()), db.t.commodities, hits)
    {
      var rest := hits;
      ghost var seen: set<int> := {};
      found, ids := [], [];
      assert Shelves() == WithShelves(old(Shelves()), db.t.commodities, seen);
      while rest != {}
        invariant rest == hits - seen && seen <= hits && Valid() && Grows()
        invariant Enumerates(ids, seen) && |found| == |ids|
        invariant forall k :: 0 <= k < |ids| ==> found[k].id == ids[k] && Cached(found[k])
        invariant Shelves() == WithShelves(old(Shelves()), db.t.commodities, seen)
        decreases rest
      {
        var id := NextRow(rest);
        label before:
        var c := LoadNext(id, old(Shelves()), seen);
        forall k | 0 <= k < |ids| ensures Cached(found[k]) { assert old@before(Cached(found[k])); }
        EnumeratesMore(ids, seen, id);
        found, ids, seen, rest := found + [c], ids + [id], seen + {id}, rest - {id};
      }
      assert seen == hits;
    }

    /** The second half of adding: both indexes are assigned without looking. */
    method PutNew(id: int, row: CommodityRow)
      requires Valid() && id in db.t.commodities && db.t.commodities[id] == row
      requires row.name !in nameMap && id !in idMap
      modifies this
      ensures Valid() && Grows()
      ensures Shelves() == WithShelves(old(Shelves()), db.t.commodities, {id})
    {
      var c := new Commodity(id, row);
      idMap := idMap[id := c];
      nameMap := nameMap[row.name := c];
      ShelvesGrow(db.t.commodities, c);
    }

    /** The new object replaces nothing: the name was free in the table, hence in the cache. */
    method AddCommodity(kind: string, name: string, merchant: string, price: real, storage: int, discount: real)
      returns (ok: bool)
      requires Valid()
      modifies this, db`t, db`faults
      ensures Valid() && Grows()
      ensures old(db.faults) <= db.faults
      ensures !ok ==> !KnownKind(kind) || Named(old(db.t), name).Some? || old(db.faults) < db.faults
      ensures ok ==> KnownKind(kind) && Named(old(db.t), name).None?
      ensures ok ==> var id, row := old(db.t).lastCommodity + 1, CommodityRow(name, kind, merchant, price, discount, storage);
        && db.t == old(db.t).(commodities := old(db.t).commodities[id := row], lastCommodity := id)
        && Shelves() == WithShelves(old(Shelves()), db.t.commodities, {id})
      ensures !ok ==> db.t == old(db.t) && Shelves() == old(Shelves())
    {
      if kind != "Food" && kind != "Clothes" && kind != "Book" && kind != "Electronics" { return false; }
      if name in nameMap {
        assert nameMap[name].id in db.t.commodities && nameMap[name].Carries(db.t.commodities[nameMap[name].id]);
        return false;
      }
      var row := CommodityRow(name, kind, merchant, price, discount, storage);
      var id;
      ok, id := db.InsertCommodity(row);
      if ok {
        assert name !in nameMap;
        NewCommoditySound(old(db.t).commodities, old(db.t).lastCommodity, row);
        PutNew(id, row);
      }
    }

    /** Changing one object changes one entry, because no object sits under two ids. */
    twostate lemma OneShelfChanged(c: Commodity)
      requires Coherent() && Cached(c) && idMap == old(idMap)
      requires forall i :: i in idMap && idMap[i] != c ==> idMap[i].OnShelf() == old(idMap[i].OnShelf())
      ensures Shelves() == old(Shelves())[c.id := c.OnShelf()]
    {
      forall i | i in idMap && i != c.id ensures idMap[i].OnShelf() == old(idMap[i].OnShelf()) {
        assert idMap[i].id == i && idMap[i] != c;
      }
    }

    method UpdatePrice(c: Commodity, newPrice: real) returns (ok: bool)
      requires Valid() && Cached(c)
      modifies db`t, db`faults, c
      ensures Valid() && old(db.faults) <= db.faults
      ensures var s := State(old(db.t), old(Shelves()), map[]);
        DoneOrFailed(State(db.t, Shelves(), map[]), ok, Update(s, c.id, Price(newPrice)), s, old(db.faults) < db.faults)
    {
      if newPrice < 0.0 {
        assert Shelves() == old(Shelves());
        return false;
      }
      ok := db.SetRow(c.id, db.t.commodities[c.id].(basePrice := newPrice));
      if ok { c.SetBasePrice(newPrice); }
      OneShelfChanged(c);
    }

    method UpdateStock(c: Commodity, newStock: int) returns (ok: bool)
      requires Valid() && Cached(c)
      modifies db`t, db`faults, c
      ensures Valid() && old(db.faults) <= db.faults
      ensures var s := State(old(db.t), old(Shelves()), map[]);
        DoneOrFailed(State(db.t, Shelves(), map[]), ok, Update(s, c.id, Stock(newStock)), s, old(db.faults) < db.faults)
    {
      if newStock < 0 {
        assert Shelves() == old(Shelves());
        return false;
      }
      ok := db.SetRow(c.id, db.t.commodities[c.id].(storage := newStock));
      if ok { c.SetStorage(newStock); }
      OneShelfChanged(c);
    }

    method UpdateDiscount(c: Commodity, newDiscount: real) returns (ok: bool)
      requires Valid() && Cached(c)
      modifies db`t, db`faults, c
      ensures Valid() && old(db.faults) <= db.faults
      ensures var s := State(old(db.t), old(Shelves()), map[]);
        DoneOrFailed(State(db.t, Shelves(), map[]), ok, Update(s, c.id, Discount(newDiscount)), s, old(db.faults) < db.faults)
    {
      if newDiscount < 0.0 || newDiscount > 1.0 {
        assert Shelves() == old(Shelves());
        return false;
      }
      ok := db.SetRow(c.id, db.t.commodities[c.id].(discount := newDiscount));
      if ok { c.SetDiscount(newDiscount); }
      OneShelfChanged(c);
    }

    /** The three handlers that modify one commodity. */
    method Apply(c: Commodity, change: Change) returns (ok: bool)
      requires Valid() && Cached(c)
      modifies db`t, db`faults, c
      ensures Valid() && old(db.faults) <= db.faults
      ensures var s := State(old(db.t), old(Shelves()), map[]);
        DoneOrFailed(State(db.t, Shelves(), map[]), ok, Update(s, c.id, change), s, old(db.faults) < db.faults)
    {
      match change {
        case Price(p) => ok := UpdatePrice(c, p);
        case Stock(n) => ok := UpdateStock(c, n);
        case Discount(d) => ok := UpdateDiscount(c, d);
      }
    }

    /** One SQL statement for the rows, one loop over the cache for the objects. */
    method BatchUpdateDiscount(merchant: string, kind: string, d: real) returns (count: int)
      requires Valid()
      modifies db`t, db`faults, idMap.Values
      ensures Valid() && old(db.faults) <= db.faults
      ensures var s := State(old(db.t), old(Shelves()), map[]);
        || (State(db.t, Shelves(), map[]), count) == BatchDiscount(s, merchant, kind, d)
        || (old(db.faults) < db.faults && Acceptable(Discount(d)) && count == -1 && db.t == s.db && Shelves() == s.shelf)
      ensures count == -1 || count ==
        |set c | c in old(db.t).commodities && old(db.t).commodities[c].merchant == merchant && old(db.t).commodities[c].kind == kind|
      ensures db.t.commodities.Keys == old(db.t).commodities.Keys
      ensures forall c :: c in old(db.t).commodities ==> (
        var row := old(db.t).commodities[c];
        db.t.commodities[c] == if count != -1 && row.merchant == merchant && row.kind == kind then row.(discount := d) else row)
      ensures forall i :: i in idMap ==> (
        var c, was := idMap[i], old(idMap[i].OnShelf());
        c.OnShelf() == if count != -1 && c.merchant == merchant && c.kind == kind then was.(discount := d) else was)
    {
      ghost var s := State(db.t, Shelves(), map[]);
      ShelvesKnown();
      count := -1;
      var ok := false;
      if 0.0 <= d && d <= 1.0 { ok, count := db.DiscountMatching(merchant, kind, d); }
      assert Shelves() == s.shelf;
      if !ok { return -1; }
      DiscountCached(merchant, kind, d);
      BatchIs(s, merchant, kind, d, count, db.t, Shelves());
    }

    method DiscountCached(merchant: string, kind: string, d: real)
      requires Coherent()
      modifies idMap.Values
      ensures forall i :: i in idMap ==>
        idMap[i].OnShelf() == Repriced(old(idMap[i].OnShelf()), idMap[i].merchant == merchant && idMap[i].kind == kind, d)
    {
      var rest := nameMap.Keys;
      while rest != {}
        invariant rest <= nameMap.Keys
        invariant forall i :: i in idMap ==> idMap[i].OnShelf() == Repriced(old(idMap[i].OnShelf()),
          idMap[i].name !in rest && idMap[i].merchant == merchant && idMap[i].kind == kind, d)
      {
        var n := NextRow(rest);
        rest := rest - {n};
        var c := nameMap[n];
        assert c.id in idMap && idMap[c.id] == c;
        if c.merchant == merchant && c.kind == kind { c.SetDiscount(d); }
      }
    }

    static function Repriced(shelf: Shelf, hit: bool, d: real): Shelf {
      if hit then shelf.(discount := d) else shelf
    }
  }
}
