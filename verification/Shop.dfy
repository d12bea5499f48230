/** The shop as one value: the tables and the two write-through caches.

  `shelf` holds the mutable fields of every cached Commodity, `purse` the balance of every
  cached User. The functions below say what each manager call does to that value. They are
  written over whole maps, without any row order; the classes that work row by row are
  proved against them, and the theorems are proved about them. */
module Shop {
  import opened Sums
  import opened Tables

  datatype Shelf = Shelf(basePrice: real, discount: real, storage: int)

  datatype State = State(db: Database, shelf: map<int, Shelf>, purse: map<string, real>)

  /** Cached things exist in the tables. */
  ghost predicate Valid(s: State) {
    Sound(s.db) && s.shelf.Keys <= s.db.commodities.Keys && s.purse.Keys <= s.db.users.Keys
  }

  // ---- Cache reads and fills ----

  function FromRow(row: CommodityRow): Shelf { Shelf(row.basePrice, row.discount, row.storage) }

  /** What a look-up of commodity `c` sees: the cached object, else the row. */
  function ShelfOf(s: State, c: int): Shelf
    requires c in s.shelf || c in s.db.commodities
  {
    if c in s.shelf then s.shelf[c] else FromRow(s.db.commodities[c])
  }

  function BalanceOf(s: State, n: string): real
    requires n in s.purse || n in s.db.users
  {
    if n in s.purse then s.purse[n] else s.db.users[n].balance
  }

  /** A cache after looking up `ids`: what was cached stays, misses are filled from the rows. */
  function WithShelves(shelf: map<int, Shelf>, rows: map<int, CommodityRow>, ids: set<int>): map<int, Shelf> {
    map c | c in shelf.Keys + ids * rows.Keys :: if c in shelf then shelf[c] else FromRow(rows[c])
  }

  function WithPurses(purse: map<string, real>, users: map<string, UserRow>, names: set<string>): map<string, real> {
    map n | n in purse.Keys + names * users.Keys :: if n in purse then purse[n] else users[n].balance
  }

  lemma {:induction false} WithPursesOne(purse: map<string, real>, users: map<string, UserRow>, n: string)
    ensures WithPurses(purse, users, {n}) ==
      if n in users && n !in purse then purse[n := users[n].balance] else purse
  {
  }

  lemma {:induction false} WithShelvesStep(shelf: map<int, Shelf>, rows: map<int, CommodityRow>, a: set<int>, b: set<int>)
    ensures WithShelves(WithShelves(shelf, rows, a), rows, b) == WithShelves(shelf, rows, a + b)
  {
  }

  /** `setStorage(getStorage() + delta)` on one cached object. */
  function Shift(shelf: map<int, Shelf>, c: int, delta: int): map<int, Shelf> {
    if c in shelf then shelf[c := shelf[c].(storage := shelf[c].storage + delta)] else shelf
  }

  function LoadShelves(s: State, ids: set<int>): State {
    s.(shelf := WithShelves(s.shelf, s.db.commodities, ids))
  }

  ghost function LoadNamed(s: State, name: string): State {
    match Named(s.db, name)
    case None => s
    case Some(c) => LoadShelves(s, {c})
  }

  function LoadPurses(s: State, names: set<string>): State {
    s.(purse := WithPurses(s.purse, s.db.users, names))
  }

  /** Can the user with this id be found? A row with an empty username cannot, unless cached. */
  predicate Found(s: State, uid: int, n: string) {
    n in s.db.users && s.db.users[n].id == uid && (n in s.purse || n != "")
  }

  function LoadBuyer(s: State, uid: int): State {
    LoadPurses(s, set n | n in s.db.users && Found(s, uid, n))
  }

  // ---- Placing an order ----

  predicate WellStocked(s: State, lines: map<int, Line>)
    requires lines.Keys <= s.db.commodities.Keys
  {
    forall c :: c in lines ==> lines[c].quantity <= ShelfOf(s, c).storage
  }

  /** The guarded UPDATE: a row that fails `storage >= ?` is left alone, and no error is reported. */
  function Taken(rows: map<int, CommodityRow>, lines: map<int, Line>): map<int, CommodityRow> {
    map c | c in rows ::
      if c in lines && lines[c].quantity <= rows[c].storage
      then rows[c].(storage := rows[c].storage - lines[c].quantity) else rows[c]
  }

  /** The cache after every line's quantity was subtracted, with no guard. */
  function Lowered(s: State, lines: map<int, Line>): map<int, Shelf>
    requires lines.Keys <= s.db.commodities.Keys
  {
    map c | c in s.shelf.Keys + lines.Keys ::
      if c in lines then ShelfOf(s, c).(storage := ShelfOf(s, c).storage - lines[c].quantity) else s.shelf[c]
  }

  function PlaceOrder(s: State, uid: int, now: int): State {
    var lines := CartLines(s.db, uid);
    var id := s.db.lastOrder + 1;
    State(
      s.db.(
        commodities := Taken(s.db.commodities, lines),
        carts := s.db.carts - {uid},
        orders := s.db.orders[id := OrderRow(uid, Pending, now, lines)],
        lastOrder := id),
      Lowered(s, lines),
      s.purse)
  }

  // ---- Payment ----

  function Pos(x: real): real { if x > 0.0 then x else 0.0 }

  function Positive<K>(m: map<K, real>): map<K, real> { map k | k in m :: Pos(m[k]) }

  /** `checkout` credits a merchant once per line, `payOrder` once with the merchant's sum;
    `addBalance` refuses every amount that is not positive. */
  datatype Split = PerLine | Grouped

  function CreditLines(owner: map<int, string>, due: map<int, real>, n: string): map<int, real> {
    Positive(SalesLines(owner, due, n))
  }

  ghost function Credit(how: Split, owner: map<int, string>, due: map<int, real>, n: string): real {
    match how
    case PerLine => Sum(CreditLines(owner, due, n))
    case Grouped => Pos(Sales(owner, due, n))
  }

  /** The buyer exists and `subtractBalance` accepts the total. */
  ghost predicate CanPay(s: State, uid: int, lines: map<int, Line>) {
    Total(lines) > 0.0 && exists n :: Found(s, uid, n) && Total(lines) <= BalanceOf(s, n)
  }

  ghost predicate Party(t: Database, uid: int, lines: map<int, Line>, n: string) {
    n in t.users && (t.users[n].id == uid || Sells(Owners(t), lines.Keys, n))
  }

  ghost function Settled(s: State, uid: int, lines: map<int, Line>, how: Split, n: string): real
    requires n in s.db.users
  {
    BalanceOf(s, n)
    - (if s.db.users[n].id == uid then Total(lines) else 0.0)
    + Credit(how, Owners(s.db), Amounts(lines), n)
  }

  /** The new balance of everyone the payment concerns. */
  ghost function Settlements(s: State, uid: int, lines: map<int, Line>, how: Split): map<string, real> {
    map n | n in s.db.users && Party(s.db, uid, lines, n) :: Settled(s, uid, lines, how, n)
  }

  function WriteBalances(users: map<string, UserRow>, balances: map<string, real>): map<string, UserRow> {
    map n | n in users :: if n in balances then users[n].(balance := balances[n]) else users[n]
  }

  ghost function Charge(s: State, uid: int, lines: map<int, Line>, how: Split): State {
    var settled := Settlements(s, uid, lines, how);
    State(s.db.(users := WriteBalances(s.db.users, settled)), s.shelf, s.purse + settled)
  }

  /** UPDATE orders SET status = … WHERE id = …; no row, no change. */
  function Mark(s: State, o: int, status: Status): State {
    if o in s.db.orders
    then s.(db := s.db.(orders := s.db.orders[o := s.db.orders[o].(status := status)]))
    else s
  }

  // ---- checkout ----

  /** How `checkout` ends; every case but `Placed` is a return value of -1. */
  datatype CheckoutResult =
    | EmptyCart | OutOfStock | SqlFault | NoUser | NoFunds
    | Placed(id: int)

  ghost predicate Checkout(s: State, uid: int, pay: bool, now: int, r: CheckoutResult, s': State) {
    var lines := CartLines(s.db, uid);
    match r
    case EmptyCart => lines.Keys == {} && s' == s
    case OutOfStock =>
      lines.Keys != {} && !WellStocked(s, lines) && exists seen: set<int> :: seen <= lines.Keys && s' == LoadShelves(s, seen)
    case SqlFault => lines.Keys != {} && WellStocked(s, lines) && s' == LoadShelves(s, lines.Keys)
    case NoUser =>
      pay && lines.Keys != {} && WellStocked(s, lines) && (forall n :: !Found(s, uid, n)) &&
      s' == s.(shelf := Lowered(s, lines))
    case NoFunds =>
      pay && lines.Keys != {} && WellStocked(s, lines) && (exists n :: Found(s, uid, n)) && !CanPay(s, uid, lines) &&
      s' == LoadBuyer(s.(shelf := Lowered(s, lines)), uid)
    case Placed(id) =>
      lines.Keys != {} && WellStocked(s, lines) && id == s.db.lastOrder + 1 &&
      if pay then CanPay(s, uid, lines) && s' == Mark(Charge(PlaceOrder(s, uid, now), uid, lines, PerLine), id, Paid)
      else s' == PlaceOrder(s, uid, now)
  }

  // ---- payOrder ----

  datatype PayResult = NoOrder | WrongStatus | NoPayer | Declined | Settlement

  ghost function PayOrder(s: State, uid: int, o: int): (State, PayResult) {
    if o !in s.db.orders || s.db.orders[o].userId != uid then (s, NoOrder)
    else if s.db.orders[o].status != Pending then (s, WrongStatus)
    else if forall n :: !Found(s, uid, n) then (s, NoPayer)
    else if !CanPay(s, uid, s.db.orders[o].lines) then (LoadBuyer(s, uid), Declined)
    else (Mark(Charge(s, uid, s.db.orders[o].lines, Grouped), o, Paid), Settlement)
  }

  // ---- Cancelling ----

  function LinesOf(t: Database, o: int): map<int, Line> {
    if o in t.orders then t.orders[o].lines else map[]
  }

  function Returned(rows: map<int, CommodityRow>, lines: map<int, Line>): map<int, CommodityRow> {
    map c | c in rows :: if c in lines then rows[c].(storage := rows[c].storage + lines[c].quantity) else rows[c]
  }

  /** Restocking. A commodity that is not cached is loaded after its row was raised and then
    raised again, so its cached stock comes out too high by the line's quantity. */
  function Raised(s: State, lines: map<int, Line>): map<int, Shelf> {
    map c | c in s.shelf.Keys + lines.Keys * s.db.commodities.Keys ::
      if c !in lines then s.shelf[c]
      else if c in s.shelf then s.shelf[c].(storage := s.shelf[c].storage + lines[c].quantity)
      else FromRow(s.db.commodities[c]).(storage := s.db.commodities[c].storage + 2 * lines[c].quantity)
  }

  function CancelInternal(s: State, o: int): State {
    var lines := LinesOf(s.db, o);
    Mark(State(s.db.(commodities := Returned(s.db.commodities, lines)), Raised(s, lines), s.purse), o, Cancelled)
  }

  function CancelOrder(s: State, uid: int, o: int): (State, bool) {
    if o !in s.db.orders || s.db.orders[o].userId != uid || s.db.orders[o].status != Pending then (s, false)
    else (CancelInternal(s, o), true)
  }

  /** The sweep cancels the orders it found one after the other. */
  function CancelAll(s: State, ids: seq<int>): State {
    if ids == [] then s else CancelInternal(CancelAll(s, ids[..|ids| - 1]), ids[|ids| - 1])
  }

  ghost predicate Sweep(s: State, cutoff: int, count: int, s': State) {
    exists ids: seq<int> :: Enumerates(ids, Expired(s.db, cutoff)) && count == |ids| && s' == CancelAll(s, ids)
  }

  /** A call does what it is for, unless the one statement fails whose result it looks at; then
    it reports failure and leaves what was looked up before. */
  predicate DoneOrFailed(s': State, ok: bool, done: (State, bool), failed: State, fault: bool) {
    (s', ok) == done || (fault && done.1 && !ok && s' == failed)
  }

  // ---- Users ----

  const MIN_PASSWORD_LENGTH := 6
  const MAX_PASSWORD_LENGTH := 16

  predicate PasswordFits(password: string) { MIN_PASSWORD_LENGTH <= |password| <= MAX_PASSWORD_LENGTH }

  function RegisterUser(s: State, kind: UserKind, n: string, secret: string): (State, bool) {
    if n in s.db.users then (s, false)
    else
      (State(
        s.db.(users := s.db.users[n := UserRow(s.db.lastUser + 1, kind, 0.0, secret)], lastUser := s.db.lastUser + 1),
        s.shelf,
        s.purse[n := 0.0]), true)
  }

  /** `secret` is the encrypted password, or nothing if the password has no admissible length. */
  function SetPassword(s: State, n: string, secret: Option<string>): (State, bool)
    requires n in s.db.users
  {
    match secret
    case None => (s, false)
    case Some(p) => (s.(db := s.db.(users := s.db.users[n := s.db.users[n].(password := p)])), true)
  }

  /** Recharging a cached user and writing the balance through. */
  function Recharge(s: State, n: string, amount: real): (State, bool)
    requires n in s.purse && n in s.db.users
  {
    if amount <= 0.0 then (s, false)
    else
      var balance := s.purse[n] + amount;
      (State(s.db.(users := s.db.users[n := s.db.users[n].(balance := balance)]), s.shelf, s.purse[n := balance]), true)
  }

  // ---- Commodities ----

  predicate KnownKind(kind: string) { kind in {"Food", "Clothes", "Book", "Electronics"} }

  ghost function AddCommodity(s: State, kind: string, name: string, merchant: string,
                              price: real, storage: int, discount: real): (State, bool) {
    if !KnownKind(kind) || Named(s.db, name).Some? then (s, false)
    else
      var id := s.db.lastCommodity + 1;
      var row := CommodityRow(name, kind, merchant, price, discount, storage);
      (State(s.db.(commodities := s.db.commodities[id := row], lastCommodity := id), s.shelf[id := FromRow(row)], s.purse), true)
  }

  /** The three single-column updates: updatePrice, updateStock, updateDiscount. */
  datatype Change = Price(price: real) | Stock(storage: int) | Discount(discount: real)

  predicate Acceptable(change: Change) {
    match change
    case Price(p) => 0.0 <= p
    case Stock(n) => 0 <= n
    case Discount(d) => 0.0 <= d <= 1.0
  }

  function ChangeRow(row: CommodityRow, change: Change): CommodityRow {
    match change
    case Price(p) => row.(basePrice := p)
    case Stock(n) => row.(storage := n)
    case Discount(d) => row.(discount := d)
  }

  function ChangeShelf(shelf: Shelf, change: Change): Shelf {
    match change
    case Price(p) => shelf.(basePrice := p)
    case Stock(n) => shelf.(storage := n)
    case Discount(d) => shelf.(discount := d)
  }

  function Update(s: State, c: int, change: Change): (State, bool)
    requires c in s.shelf && c in s.db.commodities
  {
    if !Acceptable(change) then (s, false)
    else
      (State(
        s.db.(commodities := s.db.commodities[c := ChangeRow(s.db.commodities[c], change)]),
        s.shelf[c := ChangeShelf(s.shelf[c], change)],
        s.purse), true)
  }

  function Matching(t: Database, merchant: string, kind: string): set<int> {
    set c | c in t.commodities && t.commodities[c].merchant == merchant && t.commodities[c].kind == kind
  }

  function BatchDiscount(s: State, merchant: string, kind: string, d: real): (State, int) {
    if !Acceptable(Discount(d)) then (s, -1)
    else
      var hit := Matching(s.db, merchant, kind);
      (State(
        s.db.(commodities := map c | c in s.db.commodities ::
          if c in hit then s.db.commodities[c].(discount := d) else s.db.commodities[c]),
        map c | c in s.shelf :: if c in hit then s.shelf[c].(discount := d) else s.shelf[c],
        s.purse), |hit|)
  }

  // ---- The cart ----

  function SetCart(s: State, uid: int, cart: map<int, int>): State {
    s.(db := s.db.(carts := s.db.carts[uid := cart]))
  }

  ghost function AddToCart(s: State, uid: int, name: string, q: int): (State, bool) {
    if q <= 0 then (s, false)
    else match Named(s.db, name)
      case None => (s, false)
      case Some(c) =>
        var s1 := LoadShelves(s, {c});
        var cart := CartOf(s.db, uid);
        var held := if c in cart then cart[c] else 0;
        if ShelfOf(s, c).storage < held + q then (s1, false)
        else (SetCart(s1, uid, cart[c := held + q]), true)
  }

  ghost function RemoveFromCart(s: State, uid: int, name: string): (State, bool) {
    match Named(s.db, name)
    case None => (s, false)
    case Some(c) =>
      var s1 := LoadShelves(s, {c});
      (if uid in s.db.carts then SetCart(s1, uid, s.db.carts[uid] - {c}) else s1, true)
  }

  /** Succeeds, without effect, for a commodity that is not in the cart. */
  ghost function UpdateCartQuantity(s: State, uid: int, name: string, q: int): (State, bool) {
    if q <= 0 then (s, false)
    else match Named(s.db, name)
      case None => (s, false)
      case Some(c) =>
        var s1 := LoadShelves(s, {c});
        if ShelfOf(s, c).storage < q then (s1, false)
        else if c in CartOf(s.db, uid) then (SetCart(s1, uid, s.db.carts[uid][c := q]), true)
        else (s1, true)
  }
}
