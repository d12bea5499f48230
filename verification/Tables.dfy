/** The five SQLite tables as one value.

  `users` is keyed by its UNIQUE username; `commodities` and `orders` by their row id. The
  rows of `cart_items` are grouped under their user and those of `order_items` under their
  order, which is what the composite primary keys of those two tables allow. The three
  `last…` fields are the AUTOINCREMENT counters, so a rolled-back id is handed out again. */
module Tables {
  import opened Sums

  datatype UserKind = Merchant | Consumer

  /** `password` is what `encryptPassword` made of the user's password; its value is left open. */
  datatype UserRow = UserRow(id: int, kind: UserKind, balance: real, password: string)

  datatype CommodityRow = CommodityRow(
    name: string, kind: string, merchant: string,
    basePrice: real, discount: real, storage: int)

  datatype Line = Line(quantity: int, unitPrice: real)

  datatype Status = Pending | Paid | Cancelled

  datatype OrderRow = OrderRow(userId: int, status: Status, createdAt: int, lines: map<int, Line>)

  datatype Database = Database(
    users: map<string, UserRow>,
    commodities: map<int, CommodityRow>,
    carts: map<int, map<int, int>>,
    orders: map<int, OrderRow>,
    lastUser: int, lastCommodity: int, lastOrder: int)

  datatype Option<T> = None | Some(value: T)

  ghost predicate UsersSound(users: map<string, UserRow>, last: int) {
    && (forall m, n :: m in users && n in users && users[m].id == users[n].id ==> m == n)
    && (forall n :: n in users ==> 1 <= users[n].id <= last)
    && 0 <= last
  }

  lemma {:induction false} NewUserSound(users: map<string, UserRow>, last: int, n: string, row: UserRow)
    requires UsersSound(users, last) && n !in users && row.id == last + 1
    ensures UsersSound(users[n := row], last + 1)
  {
  }

  ghost predicate CommoditiesSound(rows: map<int, CommodityRow>, last: int) {
    && (forall c, d :: c in rows && d in rows && rows[c].name == rows[d].name ==> c == d)
    && (forall c :: c in rows ==> 1 <= c <= last)
    && 0 <= last
  }

  lemma {:induction false} NewCommoditySound(rows: map<int, CommodityRow>, last: int, row: CommodityRow)
    requires CommoditiesSound(rows, last) && forall c :: c in rows ==> rows[c].name != row.name
    ensures last + 1 !in rows && CommoditiesSound(rows[last + 1 := row], last + 1)
  {
  }

  ghost predicate OrdersSound(orders: map<int, OrderRow>, last: int, known: set<int>) {
    && (forall o :: o in orders ==> 1 <= o <= last && orders[o].lines.Keys <= known)
    && 0 <= last
  }

  ghost predicate CartsSound(carts: map<int, map<int, int>>, known: set<int>) {
    forall u :: u in carts ==> carts[u].Keys <= known
  }

  /** The UNIQUE and primary-key constraints of the schema, and references that resolve
    (no statement ever deletes a user, a commodity or an order). */
  ghost predicate Sound(t: Database) {
    && UsersSound(t.users, t.lastUser)
    && CommoditiesSound(t.commodities, t.lastCommodity)
    && OrdersSound(t.orders, t.lastOrder, t.commodities.Keys)
    && CartsSound(t.carts, t.commodities.Keys)
  }

  function CartOf(t: Database, uid: int): map<int, int> {
    if uid in t.carts then t.carts[uid] else map[]
  }

  /** `base_price * discount`, as computed by the cart query. */
  function UnitPrice(row: CommodityRow): real { row.basePrice * row.discount }

  /** The cart of a user joined with the commodity table: the lines an order would get. */
  function CartLines(t: Database, uid: int): map<int, Line> {
    map c | c in CartOf(t, uid) && c in t.commodities ::
      Line(CartOf(t, uid)[c], UnitPrice(t.commodities[c]))
  }

  function Subtotal(unitPrice: real, quantity: int): real { unitPrice * quantity as real }

  function Amount(l: Line): real { Subtotal(l.unitPrice, l.quantity) }

  function Amounts(lines: map<int, Line>): map<int, real> {
    map c | c in lines :: Amount(lines[c])
  }

  /** What a buyer is charged for these lines. */
  ghost function Total(lines: map<int, Line>): real { Sum(Amounts(lines)) }

  /** Which merchant (by name) a commodity belongs to. */
  function Owners(t: Database): map<int, string> {
    map c | c in t.commodities :: t.commodities[c].merchant
  }

  lemma {:induction false} OwnersStay(t: Database, t': Database)
    requires t'.commodities.Keys == t.commodities.Keys
    requires forall c :: c in t.commodities ==> t'.commodities[c].merchant == t.commodities[c].merchant
    ensures Owners(t') == Owners(t)
  {
    forall c | c in t.commodities ensures c in t'.commodities && t'.commodities[c].merchant == t.commodities[c].merchant {
      assert c in t.commodities.Keys;
    }
    assert Owners(t') == Owners(t);
  }

  ghost predicate Sells(owner: map<int, string>, bought: set<int>, n: string) {
    exists c :: c in bought && c in owner && owner[c] == n
  }

  /** The amounts due to merchant `n`; 0 for the lines of others. */
  function SalesLines(owner: map<int, string>, due: map<int, real>, n: string): map<int, real> {
    map c | c in due :: if c in owner && owner[c] == n then due[c] else 0.0
  }

  ghost function Sales(owner: map<int, string>, due: map<int, real>, n: string): real {
    Sum(SalesLines(owner, due, n))
  }

  ghost function Named(t: Database, name: string): (r: Option<int>)
    ensures r.Some? ==> r.value in t.commodities && t.commodities[r.value].name == name
    ensures r.None? ==> forall c :: c in t.commodities ==> t.commodities[c].name != name
  {
    if c :| c in t.commodities && t.commodities[c].name == name then Some(c) else None
  }

  lemma {:induction false} NamedIs(t: Database, c: int)
    requires CommoditiesSound(t.commodities, t.lastCommodity) && c in t.commodities
    ensures Named(t, t.commodities[c].name) == Some(c)
  {
  }

  /** The PENDING orders created strictly before the cut-off. */
  function Expired(t: Database, cutoff: int): set<int> {
    set o | o in t.orders && t.orders[o].status == Pending && t.orders[o].createdAt < cutoff
  }
}
