/** Workers, locks and cache fills (src/Server.cpp, src/User.cpp, src/Commodity.cpp).

  Any number of workers serve tasks under one reader/writer lock; the expiry thread is one
  more of them. A look-up takes three steps that other readers may come between: ask the
  cache, read the row into a new object, insert the object unless its slot is taken by now.
  A writing request runs alone and is one step, but for the ids of the rows it inserts: those
  it reads back from the connection, which all workers share. */
module Concurrency {
  import opened Tables
  import opened Shop
  import opened Requests
  import opened Invariants
  import opened Steps
  import opened Runs
  import opened Likeness
  import opened Routing

  type Ref = nat

  datatype Thing = Good(id: int, name: string, shelf: Shelf) | Account(id: int, username: string, balance: real)

  /** What a look-up asks for. */
  datatype Key = ByName(name: string) | ById(id: int) | ByUser(username: string)

  /** The tables, the objects, and the three cache indexes into them. */
  datatype Store = Store(
    db: Database, heap: map<Ref, Thing>,
    nameMap: map<string, Ref>, idMap: map<int, Ref>, userMap: map<string, Ref>)

  function Slot(s: Store, key: Key): Option<Ref> {
    match key
    case ByName(n) => if n in s.nameMap then Some(s.nameMap[n]) else None
    case ById(i) => if i in s.idMap then Some(s.idMap[i]) else None
    case ByUser(n) => if n in s.userMap then Some(s.userMap[n]) else None
  }

  /** A new object for the row a key names. */
  ghost function RowThing(t: Database, key: Key): Option<Thing> {
    match key
    case ByName(n) => (match Named(t, n) case None => None case Some(c) => Some(Good(c, n, FromRow(t.commodities[c]))))
    case ById(c) => if c in t.commodities then Some(Good(c, t.commodities[c].name, FromRow(t.commodities[c]))) else None
    case ByUser(n) => if n in t.users then Some(Account(t.users[n].id, n, t.users[n].balance)) else None
  }

  /** Both commodity indexes hold the same objects, each under its own name and id; every
    cached object stands for a row. */
  ghost predicate Coherent(s: Store) {
    && (forall n :: n in s.nameMap ==> IsGood(s, s.nameMap[n]) && s.heap[s.nameMap[n]].name == n)
    && (forall i :: i in s.idMap ==> IsGood(s, s.idMap[i]) && s.heap[s.idMap[i]].id == i)
    && (forall n :: n in s.userMap ==> IsAccount(s, s.userMap[n]) && s.heap[s.userMap[n]].username == n)
  }

  ghost predicate IsAccount(s: Store, r: Ref) {
    && r in s.heap && s.heap[r].Account?
    && s.heap[r].username in s.db.users && s.db.users[s.heap[r].username].id == s.heap[r].id
  }

  ghost predicate IsGood(s: Store, r: Ref) {
    && r in s.heap && s.heap[r].Good?
    && var g := s.heap[r];
      && g.id in s.idMap && s.idMap[g.id] == r && g.name in s.nameMap && s.nameMap[g.name] == r
      && g.id in s.db.commodities && s.db.commodities[g.id].name == g.name
  }

  function ShelfAt(s: Store, r: Ref): Shelf {
    if r in s.heap && s.heap[r].Good? then s.heap[r].shelf else Shelf(0.0, 0.0, 0)
  }

  function BalanceAt(s: Store, r: Ref): real {
    if r in s.heap && s.heap[r].Account? then s.heap[r].balance else 0.0
  }

  /** The shop these objects stand for. */
  function Abs(s: Store): State {
    State(s.db, map i | i in s.idMap :: ShelfAt(s, s.idMap[i]), map n | n in s.userMap :: BalanceAt(s, s.userMap[n]))
  }

  /** What re-checking the slot under the cache mutex answers, and the caches afterwards. */
  function Settle(s: Store, r: Ref): (Store, Ref)
    requires r in s.heap
  {
    match s.heap[r]
    case Good(i, n, _) =>
      if n in s.nameMap then (s, s.nameMap[n]) else (s.(nameMap := s.nameMap[n := r], idMap := s.idMap[i := r]), r)
    case Account(_, n, _) =>
      if n in s.userMap then (s, s.userMap[n]) else (s.(userMap := s.userMap[n := r]), r)
  }

  /** Cache entries and objects stay where they are. */
  ghost predicate Grown(a: Store, b: Store) {
    && (forall n :: n in a.nameMap ==> n in b.nameMap && b.nameMap[n] == a.nameMap[n])
    && (forall i :: i in a.idMap ==> i in b.idMap && b.idMap[i] == a.idMap[i])
    && (forall n :: n in a.userMap ==> n in b.userMap && b.userMap[n] == a.userMap[n])
    && a.heap.Keys <= b.heap.Keys
  }

  // ---- What a writing request does to the caches ----

  /** A look-up with nobody beside it: `r` is where a new object would go. */
  ghost function Fetched(s: Store, key: Key, r: Ref): Store {
    match RowThing(s.db, key)
    case None => s
    case Some(thing) =>
      if Slot(s, key).Some? || r in s.heap then s else Settle(s.(heap := s.heap[r := thing]), r).0
  }

  ghost function FetchedAll(s: Store, looks: seq<(Key, Ref)>): Store {
    if looks == [] then s else
      var (key, r) := looks[|looks| - 1];
      Fetched(FetchedAll(s, looks[..|looks| - 1]), key, r)
  }

  /** Setters change stock, prices and balances, never whom an object stands for. */
  predicate SameThing(x: Thing, y: Thing) {
    match x
    case Good(i, n, _) => y.Good? && y.id == i && y.name == n
    case Account(i, n, _) => y.Account? && y.id == i && y.username == n
  }

  predicate AddsGood(q: Request, r: Reply) { q.By? && q.op.AddCommodityOp? && r == Ok }

  predicate AddsUser(q: Request, r: Reply) { q.Register? && r == Ok }

  /** `addCommodity` assigns both indexes and `registerUser` the one of users, without looking
    what is there; `id` is what they read back as the id of their row. Nothing else does. */
  ghost predicate Reindexed(m: Store, b: Store, q: Request, r: Reply, id: Option<int>) {
    if AddsGood(q, r) then id.Some? && exists x: Ref :: PutsGood(m, b, x, id.value, q.op.name)
    else if AddsUser(q, r) then id.Some? && exists x: Ref :: PutsUser(m, b, x, id.value, q.name)
    else b.nameMap == m.nameMap && b.idMap == m.idMap && b.userMap == m.userMap
  }

  ghost predicate PutsGood(m: Store, b: Store, x: Ref, id: int, name: string) {
    && x !in m.heap && x in b.heap && b.heap[x].Good? && b.heap[x].id == id && b.heap[x].name == name
    && b.nameMap == m.nameMap[name := x] && b.idMap == m.idMap[id := x] && b.userMap == m.userMap
  }

  ghost predicate PutsUser(m: Store, b: Store, x: Ref, id: int, name: string) {
    && x !in m.heap && x in b.heap && b.heap[x].Account? && b.heap[x].id == id && b.heap[x].username == name
    && b.nameMap == m.nameMap && b.idMap == m.idMap && b.userMap == m.userMap[name := x]
  }

  /** The id of the row that the request added, if it added one that it asks the id of. */
  function AddedRow(t: Database, q: Request, r: Reply): Option<int> {
    if AddsGood(q, r) then Some(t.lastCommodity + 1)
    else if AddsUser(q, r) then Some(t.lastUser + 1)
    else if q.By? && r.Ordered? && r.checkout.Placed? then Some(t.lastOrder + 1)
    else None
  }

  /** `checkout` answers with the id that was read back. */
  function Told(r: Reply, readBack: Option<int>): Reply {
    if r.Ordered? && r.checkout.Placed? && readBack.Some? then Ordered(Placed(readBack.value)) else r
  }

  /** A writing request: look-ups, then the effect `Step` describes, on the objects and tables.
    SQLite reports the id it gave to the row (`inserted`). */
  ghost predicate Effect(a: Store, b: Store, q: Request, r: Reply, looks: seq<(Key, Ref)>, inserted: Option<int>, readBack: Option<int>) {
    var m := FetchedAll(a, looks);
    && (forall x :: x in m.heap ==> x in b.heap && SameThing(m.heap[x], b.heap[x]))
    && Reindexed(m, b, q, r, readBack)
    && Step(Abs(a), q, r, Abs(b))
    && (AddedRow(a.db, q, r).Some? ==> inserted == AddedRow(a.db, q, r) && readBack.Some?)
  }

  // ---- Tasks and workers ----

  datatype Task = Message(wire: Wire, now: int) | Tick(cutoff: int)

  function Wants(t: Task): Request {
    match t
    case Message(w, now) => Route(w, now, {})
    case Tick(cutoff) => Expire(cutoff)
  }

  predicate MayWrite(t: Task) { !LooksOnly(Wants(t)) }

  datatype Mode = Shared | Exclusive

  /** The lock a task is served under. */
  function LockFor(t: Task): Mode {
    if t.Message? && IsReadOnly(t.wire.action, t.wire.operation) then Shared else Exclusive
  }

  /** No handler: the message is answered at once, without a lock. */
  predicate Unknown(t: Task) { t.Message? && t.wire.action !in ACTIONS }

  datatype Look = NoLook | Missed(key: Key) | Loaded(key: Key, ref: Ref)

  /** `inserted` is the id of the row this task inserted, `readBack` what it then read as the
    connection's last row id. */
  datatype Phase =
    | Resting
    | Waiting(task: Task)
    | Running(task: Task, mode: Mode, look: Look, done: bool, inserted: Option<int>, readBack: Option<int>)

  datatype System = System(
    store: Store, workers: map<nat, Phase>,
    lastRowId: int,            // one per connection, and there is one connection
    handed: set<(Key, Ref)>,   // every object a look-up has returned so far
    log: seq<Event>)           // the writing requests, in the order of their turns

  datatype Act =
    | Take(task: Task)
    | Dismiss
    | Acquire
    | Find(key: Key)
    | Browse(key: Key)
    | ReadRow
    | Insert
    | InsertRow(id: int)
    | ReadRowId
    | InsertLine(id: int)
    | Write(reply: Reply)
    | Release

  predicate IsRunning(p: Phase, m: Mode) { p.Running? && p.mode == m }

  /** `lock_shared` waits for a writer, `lock` for everybody. */
  ghost predicate Free(ws: map<nat, Phase>, mode: Mode) {
    forall i :: i in ws && ws[i].Running? ==> mode == Shared && ws[i].mode == Shared
  }

  function Put(a: System, w: nat, p: Phase): System { a.(workers := a.workers[w := p]) }

  /** One step of worker `w`. */
  ghost predicate Do(a: System, w: nat, act: Act, b: System) {
    w in a.workers && var p := a.workers[w];
    match act
    case Take(task) => p.Resting? && b == Put(a, w, Waiting(task))
    case Dismiss => p.Waiting? && Unknown(p.task) && b == Put(a, w, Resting)
    case Acquire =>
      p.Waiting? && !Unknown(p.task) && Free(a.workers, LockFor(p.task)) &&
      b == Put(a, w, Running(p.task, LockFor(p.task), NoLook, false, None, None))
    case Find(key) =>
      p.Running? && p.look == NoLook && !MayWrite(p.task) &&
      (match Slot(a.store, key)
        case Some(r) => b == a.(handed := a.handed + {(key, r)})
        case None => b == Put(a, w, p.(look := Missed(key))))
    case Browse(key) =>  // searches and listings read rows without asking the cache first
      p.Running? && p.look == NoLook && !MayWrite(p.task) && b == Put(a, w, p.(look := Missed(key)))
    case ReadRow =>
      p.Running? && p.look.Missed? &&
      (match RowThing(a.store.db, p.look.key)
        case None => b == Put(a, w, p.(look := NoLook))
        case Some(thing) =>
          exists r: Ref :: r !in a.store.heap &&
            b == Put(a, w, p.(look := Loaded(p.look.key, r))).(store := a.store.(heap := a.store.heap[r := thing])))
    case Insert =>
      p.Running? && p.look.Loaded? && p.look.ref in a.store.heap &&
      b == Put(a, w, p.(look := NoLook)).(
        store := Settle(a.store, p.look.ref).0,
        handed := a.handed + {(p.look.key, Settle(a.store, p.look.ref).1)})
    case InsertRow(id) =>
      p.Running? && MayWrite(p.task) && !p.done && p.inserted == None &&
      b == Put(a, w, p.(inserted := Some(id))).(lastRowId := id)
    case ReadRowId =>
      p.Running? && p.inserted.Some? && p.readBack == None && b == Put(a, w, p.(readBack := Some(a.lastRowId)))
    case InsertLine(id) =>  // the lines of an order, after its id was read
      p.Running? && MayWrite(p.task) && !p.done && p.readBack.Some? && b == a.(lastRowId := id)
    case Write(reply) =>
      p.Running? && p.look == NoLook && MayWrite(p.task) && !p.done && Admissible(Wants(p.task)) &&
      (exists r, looks :: Effect(a.store, b.store, Wants(p.task), r, looks, p.inserted, p.readBack) && reply == Told(r, p.readBack)) &&
      b == Put(a, w, p.(done := true)).(store := b.store, log := a.log + [Event(Wants(p.task), reply)])
    case Release => p.Running? && p.look == NoLook && (MayWrite(p.task) ==> p.done) && b == Put(a, w, Resting)
  }

  ghost predicate Start(a: System) {
    && Coherent(a.store) && Initial(Abs(a.store)) && a.handed == {} && a.log == []
    && forall w :: w in a.workers ==> a.workers[w].Resting?
  }

  datatype Turn = Turn(worker: nat, act: Act)

  ghost predicate Execution(ys: seq<System>, turns: seq<Turn>) {
    && |ys| == |turns| + 1 && Start(ys[0])
    && forall k :: 0 <= k < |turns| ==> TakesTurn(ys, turns, k)
  }

  ghost predicate TakesTurn(ys: seq<System>, turns: seq<Turn>, k: nat)
    requires k < |turns| && |ys| == |turns| + 1
  {
    Do(ys[k], turns[k].worker, turns[k].act, ys[k + 1])
  }

  // ---- What every interleaving keeps ----

  /** One writer, or any number of readers. */
  ghost predicate LockHeld(ws: map<nat, Phase>) {
    forall i, j :: i in ws && j in ws && i != j && IsRunning(ws[i], Exclusive) ==> !ws[j].Running?
  }

  /** Whoever may write holds the lock exclusively. */
  ghost predicate ModesRight(ws: map<nat, Phase>) {
    forall i :: i in ws && ws[i].Running? ==> ws[i].mode == LockFor(ws[i].task)
  }

  /** An object read but not yet inserted still equals its row. */
  ghost predicate LooksFresh(ws: map<nat, Phase>, s: Store) {
    forall i :: i in ws && ws[i].Running? && ws[i].look.Loaded? ==> IsFresh(s, ws[i].look.key, ws[i].look.ref)
  }

  ghost predicate IsFresh(s: Store, key: Key, r: Ref) {
    r in s.heap && RowThing(s.db, key) == Some(s.heap[r])
  }

  ghost predicate HandedRight(handed: set<(Key, Ref)>, s: Store) {
    forall k, r :: (k, r) in handed ==> Slot(s, k) == Some(r)
  }

  /** Only tasks that may write insert rows; until one has read the id of its row, that is the
    last row id, and what it read stays the id of its row. */
  ghost predicate RowIdsOwn(ws: map<nat, Phase>, lastRowId: int) {
    forall i :: i in ws && ws[i].Running? && ws[i].inserted.Some? ==>
      ws[i].mode == Exclusive && if ws[i].readBack == None then ws[i].inserted == Some(lastRowId) else ws[i].readBack == ws[i].inserted
  }

  ghost predicate NoIdYet(ws: map<nat, Phase>) {
    forall i :: i in ws && ws[i].Running? && ws[i].inserted == None ==> ws[i].readBack == None
  }

  ghost predicate Sane(a: System) {
    && LockHeld(a.workers) && ModesRight(a.workers) && RowIdsOwn(a.workers, a.lastRowId) && NoIdYet(a.workers)
    && Coherent(a.store) && BooksFine(Abs(a.store))
    && LooksFresh(a.workers, a.store) && HandedRight(a.handed, a.store)
  }

  lemma {:induction false} WritersAreExclusive(t: Task)
    requires MayWrite(t)
    ensures LockFor(t) == Exclusive
  {
  }

  // ---- The locks and the row ids ----

  lemma {:induction false} LocksStep(a: System, w: nat, act: Act, b: System)
    requires LockHeld(a.workers) && ModesRight(a.workers) && Do(a, w, act, b)
    ensures LockHeld(b.workers) && ModesRight(b.workers)
  {
  }

  lemma {:induction false} RowIdsStep(a: System, w: nat, act: Act, b: System)
    requires LockHeld(a.workers) && ModesRight(a.workers) && Do(a, w, act, b)
    requires RowIdsOwn(a.workers, a.lastRowId) && NoIdYet(a.workers)
    ensures RowIdsOwn(b.workers, b.lastRowId) && NoIdYet(b.workers)
  {
    if act.InsertRow? || act.InsertLine? { WritersAreExclusive(a.workers[w].task); }
  }

  // ---- Cache fills ----

  lemma {:induction false} StillCoherent(s: Store, r: Ref, thing: Thing)
    requires Coherent(s) && r !in s.heap
    ensures Coherent(s.(heap := s.heap[r := thing]))
  {
    var s' := s.(heap := s.heap[r := thing]);
    forall n | n in s.nameMap ensures IsGood(s', s.nameMap[n]) { assert IsGood(s, s.nameMap[n]); }
    forall i | i in s.idMap ensures IsGood(s', s.idMap[i]) { assert IsGood(s, s.idMap[i]); }
    forall n | n in s.userMap ensures IsAccount(s', s.userMap[n]) { assert IsAccount(s, s.userMap[n]); }
  }

  /** Reading a row leaves a new object beside the old ones. */
  lemma {:induction false} NewObject(s: Store, r: Ref, thing: Thing)
    requires Coherent(s) && r !in s.heap
    ensures var s' := s.(heap := s.heap[r := thing]); Coherent(s') && Grown(s, s') && Abs(s') == Abs(s)
  {
    StillCoherent(s, r, thing);
    var s' := s.(heap := s.heap[r := thing]);
    forall i | i in s.idMap ensures ShelfAt(s', s.idMap[i]) == ShelfAt(s, s.idMap[i]) { assert IsGood(s, s.idMap[i]); }
    forall n | n in s.userMap ensures BalanceAt(s', s.userMap[n]) == BalanceAt(s, s.userMap[n]) { assert IsAccount(s, s.userMap[n]); }
    assert Abs(s').shelf == Abs(s).shelf && Abs(s').purse == Abs(s).purse;
  }

  /** The object stands for a row of the tables. */
  predicate ForRow(t: Database, thing: Thing) {
    match thing
    case Good(i, n, shelf) => i in t.commodities && t.commodities[i].name == n && shelf == FromRow(t.commodities[i])
    case Account(i, n, balance) => n in t.users && t.users[n].id == i && t.users[n].balance == balance
  }

  lemma {:induction false} FreshForRow(s: Store, key: Key, r: Ref)
    requires IsFresh(s, key, r)
    ensures ForRow(s.db, s.heap[r])
  {
  }

  /** The name is cached: nothing is put anywhere. */
  lemma {:induction false} GoodKnown(s: Store, r: Ref)
    requires Coherent(s) && CommoditiesSound(s.db.commodities, s.db.lastCommodity)
    requires r in s.heap && s.heap[r].Good? && ForRow(s.db, s.heap[r]) && s.heap[r].name in s.nameMap
    ensures var r' := s.nameMap[s.heap[r].name]; IsGood(s, r') && s.heap[r'].id == s.heap[r].id && s.idMap[s.heap[r].id] == r'
    ensures Abs(s) == LoadShelves(Abs(s), {s.heap[r].id})
  {
    var g, r' := s.heap[r], s.nameMap[s.heap[r].name];
    assert IsGood(s, r') && s.heap[r'].name == g.name;
    assert g.id in Abs(s).shelf;
    assert Abs(s).shelf == WithShelves(Abs(s).shelf, s.db.commodities, {g.id});
  }

  /** The name is free: both indexes gain the new object. */
  lemma {:induction false} FillSlot(s: Store, r: Ref)
    requires Coherent(s) && CommoditiesSound(s.db.commodities, s.db.lastCommodity)
    requires r in s.heap && s.heap[r].Good? && ForRow(s.db, s.heap[r]) && s.heap[r].name !in s.nameMap
    ensures var g, s' := s.heap[r], Settle(s, r).0;
      Coherent(s') && Grown(s, s') && g.id !in s.idMap && s'.idMap == s.idMap[g.id := r]
  {
    var g, s' := s.heap[r], Settle(s, r).0;
    assert forall i :: i in s.idMap ==> IsGood(s, s.idMap[i]);
    assert g.id !in s.idMap;
    forall n | n in s.nameMap ensures IsGood(s', s.nameMap[n]) { assert IsGood(s, s.nameMap[n]); }
    forall i | i in s.idMap ensures IsGood(s', s.idMap[i]) { assert IsGood(s, s.idMap[i]); }
    assert IsGood(s', r);
    forall n | n in s.userMap ensures IsAccount(s', s.userMap[n]) { assert IsAccount(s, s.userMap[n]); }
  }

  lemma {:induction false} FilledShelves(s: Store, r: Ref)
    requires r in s.heap && s.heap[r].Good? && ForRow(s.db, s.heap[r])
    requires s.heap[r].name !in s.nameMap && s.heap[r].id !in s.idMap
    ensures Abs(Settle(s, r).0) == LoadShelves(Abs(s), {s.heap[r].id})
  {
    var g, s' := s.heap[r], Settle(s, r).0;
    var shelf := WithShelves(Abs(s).shelf, s.db.commodities, {g.id});
    assert Abs(s').shelf.Keys == s.idMap.Keys + {g.id} == shelf.Keys;
    forall i | i in shelf ensures Abs(s').shelf[i] == shelf[i] { assert i in s.idMap <==> i in Abs(s).shelf; }
    assert Abs(s').shelf == shelf && Abs(s').purse == Abs(s).purse;
  }

  /** Inserting an object that equals its row: the cache gains that one entry or nothing, no
    slot is replaced, and both indexes answer with the object that is cached. */
  lemma {:induction false} InsertGood(s: Store, r: Ref)
    requires Coherent(s) && CommoditiesSound(s.db.commodities, s.db.lastCommodity)
    requires r in s.heap && s.heap[r].Good? && ForRow(s.db, s.heap[r])
    ensures var (s', r') := Settle(s, r); var g := s.heap[r];
      && Coherent(s') && Grown(s, s') && Abs(s') == LoadShelves(Abs(s), {g.id})
      && Slot(s', ByName(g.name)) == Some(r') && Slot(s', ById(g.id)) == Some(r')
  {
    if s.heap[r].name in s.nameMap {
      GoodKnown(s, r);
    } else {
      FillSlot(s, r);
      FilledShelves(s, r);
    }
  }

  lemma {:induction false} InsertAccount(s: Store, r: Ref)
    requires Coherent(s) && r in s.heap && s.heap[r].Account? && ForRow(s.db, s.heap[r])
    ensures var (s', r') := Settle(s, r); var g := s.heap[r];
      && Coherent(s') && Grown(s, s') && Abs(s') == LoadPurses(Abs(s), {g.username})
      && Slot(s', ByUser(g.username)) == Some(r')
  {
    var n, s' := s.heap[r].username, Settle(s, r).0;
    if n in s.userMap {
      assert IsAccount(s, s.userMap[n]);
    } else {
      forall m | m in s.nameMap ensures IsGood(s', s.nameMap[m]) { assert IsGood(s, s.nameMap[m]); }
      forall i | i in s.idMap ensures IsGood(s', s.idMap[i]) { assert IsGood(s, s.idMap[i]); }
      forall m | m in s.userMap ensures IsAccount(s', s.userMap[m]) { assert IsAccount(s, s.userMap[m]); }
    }
    assert Abs(s').purse == WithPurses(Abs(s).purse, s.db.users, {n});
  }

  /** What a fill loads. */
  function GoodOf(thing: Thing): set<int> { if thing.Good? then {thing.id} else {} }

  function UserOf(thing: Thing): set<string> { if thing.Account? then {thing.username} else {} }

  lemma {:induction false} LoadNothing(s: State)
    ensures LoadShelves(s, {}) == s && LoadPurses(s, {}) == s && Looked(s, {}, {}) == s
  {
  }

  /** Settling any object that equals its row. */
  lemma {:induction false} SettleRow(s: Store, r: Ref)
    requires Coherent(s) && CommoditiesSound(s.db.commodities, s.db.lastCommodity)
    requires r in s.heap && ForRow(s.db, s.heap[r])
    ensures var s' := Settle(s, r).0;
      && Coherent(s') && Grown(s, s') && s'.db == s.db && s'.heap == s.heap
      && Abs(s') == Looked(Abs(s), GoodOf(s.heap[r]), UserOf(s.heap[r]))
  {
    LoadNothing(Abs(s));
    if s.heap[r].Good? {
      InsertGood(s, r);
    } else {
      InsertAccount(s, r);
      LoadNothing(Abs(Settle(s, r).0));
    }
  }

  lemma {:induction false} RowIsFor(t: Database, key: Key)
    ensures RowThing(t, key).Some? ==> ForRow(t, RowThing(t, key).value)
  {
  }

  lemma {:induction false} GrownOn(a: Store, b: Store, c: Store)
    requires Grown(a, b) && Grown(b, c)
    ensures Grown(a, c)
  {
  }

  lemma {:induction false} FetchedKeeps(s: Store, key: Key, r: Ref)
    requires Coherent(s) && CommoditiesSound(s.db.commodities, s.db.lastCommodity)
    ensures var s' := Fetched(s, key, r); Coherent(s') && Grown(s, s') && s'.db == s.db
  {
    RowIsFor(s.db, key);
    if RowThing(s.db, key).Some? && Slot(s, key).None? && r !in s.heap {
      var thing := RowThing(s.db, key).value;
      var m := s.(heap := s.heap[r := thing]);
      NewObject(s, r, thing);
      SettleRow(m, r);
      GrownOn(s, m, Fetched(s, key, r));
    }
  }

  lemma {:induction false} FetchedAllKeeps(s: Store, looks: seq<(Key, Ref)>)
    requires Coherent(s) && CommoditiesSound(s.db.commodities, s.db.lastCommodity)
    ensures var s' := FetchedAll(s, looks); Coherent(s') && Grown(s, s') && s'.db == s.db
    decreases |looks|
  {
    if looks != [] {
      var front := looks[..|looks| - 1];
      var (key, r) := looks[|looks| - 1];
      FetchedAllKeeps(s, front);
      FetchedKeeps(FetchedAll(s, front), key, r);
      GrownOn(s, FetchedAll(s, front), FetchedAll(s, looks));
    }
  }

  // ---- A writing request keeps the caches coherent and replaces nothing ----

  lemma {:induction false} AddedGood(s: State, q: Request, s': State)
    requires Sound(s.db) && Step(s, q, Ok, s') && AddsGood(q, Ok)
    ensures var id, name := s.db.lastCommodity + 1, q.op.name;
      && (forall c :: c in s.db.commodities ==> s.db.commodities[c].name != name)
      && id !in s.db.commodities && id in s'.db.commodities && s'.db.commodities[id].name == name
  {
  }

  lemma {:induction false} AddedUser(s: State, q: Request, s': State)
    requires Step(s, q, Ok, s') && AddsUser(q, Ok)
    ensures q.name !in s.db.users && q.name in s'.db.users && s'.db.users[q.name].id == s.db.lastUser + 1
  {
  }

  /** An object that stays where it was in the indexes and whose row stays. */
  lemma {:induction false} StillGood(m: Store, b: Store, r: Ref)
    requires IsGood(m, r) && r in b.heap && SameThing(m.heap[r], b.heap[r]) && RowsKept(m.db, b.db)
    requires var g := m.heap[r]; g.id in b.idMap && b.idMap[g.id] == r && g.name in b.nameMap && b.nameMap[g.name] == r
    ensures IsGood(b, r)
  {
    assert SameGood(m.db.commodities[m.heap[r].id], b.db.commodities[m.heap[r].id]);
  }

  lemma {:induction false} StillAccount(m: Store, b: Store, r: Ref)
    requires IsAccount(m, r) && r in b.heap && SameThing(m.heap[r], b.heap[r]) && RowsKept(m.db, b.db)
    ensures IsAccount(b, r)
  {
  }

  ghost predicate ThingsKept(m: Store, b: Store) {
    forall x :: x in m.heap ==> x in b.heap && SameThing(m.heap[x], b.heap[x])
  }

  lemma {:induction false} SameIndexes(m: Store, b: Store)
    requires Coherent(m) && ThingsKept(m, b) && RowsKept(m.db, b.db)
    requires b.nameMap == m.nameMap && b.idMap == m.idMap && b.userMap == m.userMap
    ensures Coherent(b) && Grown(m, b)
  {
    forall n | n in m.nameMap ensures IsGood(b, m.nameMap[n]) { assert IsGood(m, m.nameMap[n]); StillGood(m, b, m.nameMap[n]); }
    forall i | i in m.idMap ensures IsGood(b, m.idMap[i]) { assert IsGood(m, m.idMap[i]); StillGood(m, b, m.idMap[i]); }
    forall n | n in m.userMap ensures IsAccount(b, m.userMap[n]) { assert IsAccount(m, m.userMap[n]); StillAccount(m, b, m.userMap[n]); }
  }

  /** `addCommodity` overwrites nothing: the name was free in the table, hence in the index, and
    so was the new id. */
  lemma {:induction false} GoodOverwritesNothing(m: Store, b: Store, x: Ref, id: int, name: string)
    requires Coherent(m) && ThingsKept(m, b) && RowsKept(m.db, b.db) && PutsGood(m, b, x, id, name)
    requires forall c :: c in m.db.commodities ==> m.db.commodities[c].name != name
    requires id !in m.db.commodities && id in b.db.commodities && b.db.commodities[id].name == name
    ensures Coherent(b) && Grown(m, b)
  {
    assert forall n :: n in m.nameMap ==> IsGood(m, m.nameMap[n]) && n != name;
    assert forall i :: i in m.idMap ==> IsGood(m, m.idMap[i]) && i != id;
    forall n | n in m.nameMap ensures IsGood(b, m.nameMap[n]) { StillGood(m, b, m.nameMap[n]); }
    forall i | i in m.idMap ensures IsGood(b, m.idMap[i]) { StillGood(m, b, m.idMap[i]); }
    forall n | n in m.userMap ensures IsAccount(b, m.userMap[n]) { assert IsAccount(m, m.userMap[n]); StillAccount(m, b, m.userMap[n]); }
  }

  lemma {:induction false} UserOverwritesNothing(m: Store, b: Store, x: Ref, id: int, name: string)
    requires Coherent(m) && ThingsKept(m, b) && RowsKept(m.db, b.db) && PutsUser(m, b, x, id, name)
    requires name !in m.db.users && name in b.db.users && b.db.users[name].id == id
    ensures Coherent(b) && Grown(m, b)
  {
    assert forall n :: n in m.userMap ==> IsAccount(m, m.userMap[n]) && n != name;
    forall n | n in m.nameMap ensures IsGood(b, m.nameMap[n]) { assert IsGood(m, m.nameMap[n]); StillGood(m, b, m.nameMap[n]); }
    forall i | i in m.idMap ensures IsGood(b, m.idMap[i]) { assert IsGood(m, m.idMap[i]); StillGood(m, b, m.idMap[i]); }
    forall n | n in m.userMap ensures IsAccount(b, m.userMap[n]) { StillAccount(m, b, m.userMap[n]); }
  }

  /** The row that a request added has a name that was free, and the id that was read back. */
  ghost predicate RowIsNew(t: Database, t': Database, q: Request, r: Reply, id: Option<int>) {
    && (AddsGood(q, r) ==>
        && id.Some? && (forall c :: c in t.commodities ==> t.commodities[c].name != q.op.name)
        && id.value !in t.commodities && id.value in t'.commodities && t'.commodities[id.value].name == q.op.name)
    && (AddsUser(q, r) ==> id.Some? && q.name !in t.users && q.name in t'.users && t'.users[q.name].id == id.value)
  }

  lemma {:induction false} NewRows(s: State, q: Request, r: Reply, s': State, id: Option<int>)
    requires Sound(s.db) && Step(s, q, r, s') && (AddedRow(s.db, q, r).Some? ==> id == AddedRow(s.db, q, r))
    ensures RowIsNew(s.db, s'.db, q, r, id)
  {
    if AddsGood(q, r) { AddedGood(s, q, s'); }
    if AddsUser(q, r) { AddedUser(s, q, s'); }
  }

  lemma {:induction false} ReindexedKeeps(m: Store, b: Store, q: Request, r: Reply, id: Option<int>)
    requires Coherent(m) && ThingsKept(m, b) && RowsKept(m.db, b.db)
    requires Reindexed(m, b, q, r, id) && RowIsNew(m.db, b.db, q, r, id)
    ensures Coherent(b) && Grown(m, b)
  {
    if AddsGood(q, r) {
      var x: Ref :| PutsGood(m, b, x, id.value, q.op.name);
      GoodOverwritesNothing(m, b, x, id.value, q.op.name);
    } else if AddsUser(q, r) {
      var x: Ref :| PutsUser(m, b, x, id.value, q.name);
      UserOverwritesNothing(m, b, x, id.value, q.name);
    } else {
      SameIndexes(m, b);
    }
  }

  lemma {:induction false} EffectRows(a: Store, b: Store, q: Request, r: Reply, looks: seq<(Key, Ref)>,
                                      inserted: Option<int>, readBack: Option<int>)
    requires Coherent(a) && BooksFine(Abs(a)) && Effect(a, b, q, r, looks, inserted, readBack)
    requires readBack.Some? ==> readBack == inserted
    ensures var m := FetchedAll(a, looks);
      && Coherent(m) && Grown(a, m) && m.db == a.db && ThingsKept(m, b) && RowsKept(a.db, b.db)
      && Reindexed(m, b, q, r, readBack) && RowIsNew(a.db, b.db, q, r, readBack)
  {
    FetchedAllKeeps(a, looks);
    StepRows(Abs(a), q, r, Abs(b));
    NewRows(Abs(a), q, r, Abs(b), readBack);
  }

  /** With UNIQUE names, coherent caches and the id of one's own row, every writing request
    keeps the caches coherent and every entry where it is. */
  lemma {:induction false} EffectKeeps(a: Store, b: Store, q: Request, r: Reply, looks: seq<(Key, Ref)>,
                                       inserted: Option<int>, readBack: Option<int>)
    requires Coherent(a) && BooksFine(Abs(a)) && Effect(a, b, q, r, looks, inserted, readBack)
    requires readBack.Some? ==> readBack == inserted
    ensures Coherent(b) && Grown(a, b)
  {
    EffectRows(a, b, q, r, looks, inserted, readBack);
    ReindexedKeeps(FetchedAll(a, looks), b, q, r, readBack);
    GrownOn(a, FetchedAll(a, looks), b);
  }

  lemma {:induction false} PlacedId(s: State, q: Request, r: Reply, s': State)
    requires Step(s, q, r, s') && q.By? && r.Ordered? && r.checkout.Placed?
    ensures r.checkout.id == s.db.lastOrder + 1
  {
  }

  /** The id told to the client is the one the order has. */
  lemma {:induction false} ToldRight(a: Store, b: Store, q: Request, r: Reply, looks: seq<(Key, Ref)>,
                                     inserted: Option<int>, readBack: Option<int>)
    requires Effect(a, b, q, r, looks, inserted, readBack) && (readBack.Some? ==> readBack == inserted)
    ensures Told(r, readBack) == r
  {
    if r.Ordered? && r.checkout.Placed? && q.By? { PlacedId(Abs(a), q, r, Abs(b)); }
  }

  /** Whatever step is taken, the entries already cached stay, and so does what a key finds. */
  lemma {:induction false} SlotsStay(a: Store, b: Store, handed: set<(Key, Ref)>)
    requires Grown(a, b) && HandedRight(handed, a)
    ensures HandedRight(handed, b)
  {
  }

  // ---- One step keeps it all ----

  /** Of the steps, only `Write` touches the tables, and only a writer with nobody beside it. */
  lemma {:induction false} OnlyWritesWrite(a: System, w: nat, act: Act, b: System)
    requires LockHeld(a.workers) && ModesRight(a.workers) && Do(a, w, act, b)
    ensures act.Write? ==> a.workers[w].mode == Exclusive && forall v :: v in a.workers && a.workers[v].Running? ==> v == w
    ensures !act.Write? ==> b.store.db == a.store.db && b.log == a.log
  {
    if act.Write? { WritersAreExclusive(a.workers[w].task); }
  }

  lemma {:induction false} OwnReadBack(a: System, w: nat)
    requires RowIdsOwn(a.workers, a.lastRowId) && NoIdYet(a.workers) && w in a.workers && a.workers[w].Running?
    ensures a.workers[w].readBack.Some? ==> a.workers[w].readBack == a.workers[w].inserted
  {
  }

  lemma {:induction false} WriteStep(a: System, w: nat, reply: Reply, b: System)
    requires Sane(a) && Do(a, w, Write(reply), b)
    ensures Coherent(b.store) && Grown(a.store, b.store)
    ensures Step(Abs(a.store), Wants(a.workers[w].task), reply, Abs(b.store)) && Admissible(Wants(a.workers[w].task))
  {
    var p := a.workers[w];
    OwnReadBack(a, w);
    var r, looks :| Effect(a.store, b.store, Wants(p.task), r, looks, p.inserted, p.readBack) && reply == Told(r, p.readBack);
    EffectKeeps(a.store, b.store, Wants(p.task), r, looks, p.inserted, p.readBack);
    ToldRight(a.store, b.store, Wants(p.task), r, looks, p.inserted, p.readBack);
  }

  lemma {:induction false} ReadRowStep(a: System, w: nat, b: System)
    requires Sane(a) && Do(a, w, ReadRow, b)
    ensures Coherent(b.store) && Grown(a.store, b.store) && Abs(b.store) == Abs(a.store)
    ensures LooksFresh(b.workers, b.store)
  {
    var p := a.workers[w];
    match RowThing(a.store.db, p.look.key)
    case None =>
    case Some(thing) =>
      var r: Ref :| r !in a.store.heap &&
        b == Put(a, w, p.(look := Loaded(p.look.key, r))).(store := a.store.(heap := a.store.heap[r := thing]));
      NewObject(a.store, r, thing);
  }

  lemma {:induction false} InsertStep(a: System, w: nat, b: System)
    requires Sane(a) && Do(a, w, Insert, b)
    ensures a.workers[w].look.Loaded? && a.workers[w].look.ref in a.store.heap
    ensures Coherent(b.store) && Grown(a.store, b.store)
    ensures var thing := a.store.heap[a.workers[w].look.ref];
      Abs(b.store) == Looked(Abs(a.store), GoodOf(thing), UserOf(thing))
  {
    var look := a.workers[w].look;
    assert IsFresh(a.store, look.key, look.ref);
    FreshForRow(a.store, look.key, look.ref);
    SettleRow(a.store, look.ref);
  }

  /** Every step but `Write` looks something up, if anything. */
  lemma {:induction false} StoreStep(a: System, w: nat, act: Act, b: System) returns (ids: set<int>, names: set<string>)
    requires Sane(a) && Do(a, w, act, b)
    ensures Coherent(b.store) && Grown(a.store, b.store)
    ensures if act.Write? then Step(Abs(a.store), Wants(a.workers[w].task), act.reply, Abs(b.store))
      else Abs(b.store) == Looked(Abs(a.store), ids, names)
  {
    ids, names := {}, {};
    LoadNothing(Abs(a.store));
    match act
    case ReadRow => ReadRowStep(a, w, b);
    case Insert =>
      InsertStep(a, w, b);
      var thing := a.store.heap[a.workers[w].look.ref];
      ids, names := GoodOf(thing), UserOf(thing);
    case Write(reply) => WriteStep(a, w, reply, b);
    case _ => assert b.store == a.store;
  }

  /** No new unsettled look-ups. */
  ghost predicate LooksOnlyEnd(ws: map<nat, Phase>, ws': map<nat, Phase>) {
    forall i :: i in ws' && ws'[i].Running? && ws'[i].look.Loaded? ==> i in ws && ws[i].Running? && ws[i].look == ws'[i].look
  }

  lemma {:induction false} LooksStay(ws: map<nat, Phase>, s: Store, ws': map<nat, Phase>, s': Store)
    requires LooksFresh(ws, s) && s'.heap == s.heap && s'.db == s.db && LooksOnlyEnd(ws, ws')
    ensures LooksFresh(ws', s')
  {
  }

  lemma {:induction false} LooksEnd(a: System, w: nat, act: Act, b: System)
    requires Do(a, w, act, b) && !act.ReadRow?
    ensures LooksOnlyEnd(a.workers, b.workers)
    ensures !act.Write? ==> b.store.heap == a.store.heap && b.store.db == a.store.db
  {
  }

  lemma {:induction false} LooksStep(a: System, w: nat, act: Act, b: System)
    requires Sane(a) && Do(a, w, act, b)
    ensures LooksFresh(b.workers, b.store)
  {
    if act.ReadRow? {
      ReadRowStep(a, w, b);
    } else if act.Write? {
      OnlyWritesWrite(a, w, act, b);
    } else {
      LooksEnd(a, w, act, b);
      LooksStay(a.workers, a.store, b.workers, b.store);
    }
  }

  /** The answer of an insert sits under the key that was asked for. */
  lemma {:induction false} InsertAnswers(s: Store, key: Key, r: Ref)
    requires Coherent(s) && CommoditiesSound(s.db.commodities, s.db.lastCommodity) && IsFresh(s, key, r)
    ensures Slot(Settle(s, r).0, key) == Some(Settle(s, r).1)
  {
    FreshForRow(s, key, r);
    if s.heap[r].Good? { InsertGood(s, r); } else { InsertAccount(s, r); }
  }

  lemma {:induction false} HandedStep(a: System, w: nat, act: Act, b: System)
    requires Sane(a) && Do(a, w, act, b)
    ensures a.handed <= b.handed && HandedRight(b.handed, b.store)
  {
    var ids, names := StoreStep(a, w, act, b);
    SlotsStay(a.store, b.store, a.handed);
    if act.Insert? {
      var look := a.workers[w].look;
      assert IsFresh(a.store, look.key, look.ref);
      InsertAnswers(a.store, look.key, look.ref);
    }
  }

  lemma {:induction false} BooksStep(a: System, w: nat, act: Act, b: System)
    requires Sane(a) && Do(a, w, act, b)
    ensures Coherent(b.store) && BooksFine(Abs(b.store))
  {
    var ids, names := StoreStep(a, w, act, b);
    if act.Write? {
      StepFine(Abs(a.store), Wants(a.workers[w].task), act.reply, Abs(b.store));
    } else {
      LookedFine(Abs(a.store), ids, names);
    }
  }

  lemma {:induction false} SaneStep(a: System, w: nat, act: Act, b: System)
    requires Sane(a) && Do(a, w, act, b)
    ensures Sane(b)
  {
    LocksStep(a, w, act, b);
    RowIdsStep(a, w, act, b);
    BooksStep(a, w, act, b);
    LooksStep(a, w, act, b);
    HandedStep(a, w, act, b);
  }

  // ---- Whole executions ----

  lemma {:induction false} AlwaysSane(ys: seq<System>, turns: seq<Turn>, k: nat)
    requires Execution(ys, turns) && k <= |turns|
    ensures Sane(ys[k])
  {
    if k == 0 {
      InitialInv(Abs(ys[0].store));
    } else {
      AlwaysSane(ys, turns, k - 1);
      assert TakesTurn(ys, turns, k - 1);
      SaneStep(ys[k - 1], turns[k - 1].worker, turns[k - 1].act, ys[k]);
    }
  }

  ghost predicate Kept(a: System, b: System) {
    Grown(a.store, b.store) && a.handed <= b.handed
  }

  lemma {:induction false} TurnKeeps(ys: seq<System>, turns: seq<Turn>, k: nat)
    requires Execution(ys, turns) && k < |turns|
    ensures Kept(ys[k], ys[k + 1])
  {
    AlwaysSane(ys, turns, k);
    var a, t, b := ys[k], turns[k], ys[k + 1];
    assert TakesTurn(ys, turns, k);
    var ids, names := StoreStep(a, t.worker, t.act, b);
    HandedStep(a, t.worker, t.act, b);
  }

  lemma {:induction false} KeptFrom(ys: seq<System>, j: nat, k: nat)
    requires j <= k < |ys| && forall i :: 0 <= i < |ys| - 1 ==> Kept(ys[i], ys[i + 1])
    ensures Kept(ys[j], ys[k])
  {
    if j < k {
      KeptFrom(ys, j, k - 1);
      assert Kept(ys[k - 1], ys[k - 1 + 1]);
    }
  }

  /** Cache entries and returned objects outlive everything that follows. */
  lemma {:induction false} NothingIsReplaced(ys: seq<System>, turns: seq<Turn>, j: nat, k: nat)
    requires Execution(ys, turns) && j <= k <= |turns|
    ensures Grown(ys[j].store, ys[k].store) && ys[j].handed <= ys[k].handed
  {
    forall i | 0 <= i < |turns| ensures Kept(ys[i], ys[i + 1]) { TurnKeeps(ys, turns, i); }
    KeptFrom(ys, j, k);
  }

  /** Whenever two look-ups for the same name, id or user return, by whichever workers and
    however their steps interleave, they return the same object; a look-up by name and one by
    id of the same commodity do too. */
  lemma {:induction false} OneObjectPerKey(ys: seq<System>, turns: seq<Turn>, j: nat, k: nat, key: Key, r: Ref, r': Ref)
    requires Execution(ys, turns) && j <= k <= |turns| && (key, r) in ys[j].handed && (key, r') in ys[k].handed
    ensures r == r'
    ensures key.ByName? ==> Coherent(ys[k].store) && IsGood(ys[k].store, r) && ys[k].store.idMap[ys[k].store.heap[r].id] == r
  {
    NothingIsReplaced(ys, turns, j, k);
    AlwaysSane(ys, turns, k);
  }

  /** What `Settle` adds to the caches is the object it was given, and only under its own keys. */
  lemma {:induction false} SettledSlots(s: Store, r: Ref, key: Key, r': Ref)
    requires r in s.heap && Slot(s, key) == None && Slot(Settle(s, r).0, key) == Some(r')
    ensures r' == r && Settle(s, r).0.heap == s.heap && Settle(s, r).0.db == s.db
    ensures key == match s.heap[r]
      case Good(i, n, _) => if key.ByName? then ByName(n) else ById(i)
      case Account(_, n, _) => ByUser(n)
  {
  }

  lemma {:induction false} KeysOfRow(t: Database, key: Key, key': Key, thing: Thing)
    requires CommoditiesSound(t.commodities, t.lastCommodity) && RowThing(t, key) == Some(thing)
    requires key' == match thing
      case Good(i, n, _) => if key'.ByName? then ByName(n) else ById(i)
      case Account(_, n, _) => ByUser(n)
    ensures RowThing(t, key') == Some(thing)
  {
  }

  /** An entry that a reader adds, under whichever index, equals its table row at that moment. */
  lemma {:induction false} NewEntriesEqualRows(a: System, w: nat, b: System, key: Key, r: Ref)
    requires Sane(a) && Do(a, w, Insert, b) && Slot(a.store, key) == None && Slot(b.store, key) == Some(r)
    ensures r in b.store.heap && RowThing(b.store.db, key) == Some(b.store.heap[r])
  {
    var look := a.workers[w].look;
    assert IsFresh(a.store, look.key, look.ref);
    SettledSlots(a.store, look.ref, key, r);
    KeysOfRow(a.store.db, look.key, key, a.store.heap[r]);
  }

  // ---- An execution is a run ----

  /** The events that are not look-ups. */
  function Writing(es: seq<Event>): seq<Event> {
    if es == [] then [] else
      var e := es[|es| - 1];
      Writing(es[..|es| - 1]) + if e.q.Fill? then [] else [e]
  }

  /** A run of the shop from where the execution started to where it is now, in which the
    look-ups of readers are events of their own. */
  ghost predicate Follows(init: System, a: System, ss: seq<State>, es: seq<Event>) {
    && Run(ss, es) && ss[0] == Abs(init.store) && ss[|es|] == Abs(a.store) && Writing(es) == a.log
  }

  lemma {:induction false} RunMore(ss: seq<State>, es: seq<Event>, e: Event, s': State)
    requires Run(ss, es) && Step(ss[|es|], e.q, e.r, s') && Admissible(e.q)
    ensures Run(ss + [s'], es + [e])
  {
    var ss', es' := ss + [s'], es + [e];
    forall i: nat | i < |es'| ensures Served(ss', es', i) { if i < |es| { assert Served(ss, es, i); } }
  }

  lemma {:induction false} FollowsOn(init: System, a: System, ss: seq<State>, es: seq<Event>, e: Event, b: System)
    requires Follows(init, a, ss, es) && Step(Abs(a.store), e.q, e.r, Abs(b.store)) && Admissible(e.q)
    requires b.log == a.log + if e.q.Fill? then [] else [e]
    ensures Follows(init, b, ss + [Abs(b.store)], es + [e])
  {
    RunMore(ss, es, e, Abs(b.store));
    assert (es + [e])[..|es|] == es;
  }

  lemma {:induction false} WritesAreLogged(a: System, w: nat, act: Act, b: System)
    requires Do(a, w, act, b)
    ensures if act.Write? then b.log == a.log + [Event(Wants(a.workers[w].task), act.reply)] && !Wants(a.workers[w].task).Fill?
        && Admissible(Wants(a.workers[w].task))
      else b.log == a.log
  {
  }

  lemma {:induction false} FollowsStep(init: System, a: System, w: nat, act: Act, b: System, ss: seq<State>, es: seq<Event>)
    returns (ss': seq<State>, es': seq<Event>)
    requires Sane(a) && Do(a, w, act, b) && Follows(init, a, ss, es)
    ensures Follows(init, b, ss', es')
  {
    var ids, names := StoreStep(a, w, act, b);
    WritesAreLogged(a, w, act, b);
    var e := if act.Write? then Event(Wants(a.workers[w].task), act.reply) else Event(Fill(ids, names), Ok);
    FollowsOn(init, a, ss, es, e, b);
    ss', es' := ss + [Abs(b.store)], es + [e];
  }

  /** However requests interleave, the caches and tables go through a run of the shop, in which
    the writing requests have the order of their turns and the replies they gave. */
  lemma {:induction false} ExecutionIsRun(ys: seq<System>, turns: seq<Turn>, k: nat) returns (ss: seq<State>, es: seq<Event>)
    requires Execution(ys, turns) && k <= |turns|
    ensures Follows(ys[0], ys[k], ss, es)
  {
    if k == 0 {
      ss, es := [Abs(ys[0].store)], [];
    } else {
      ss, es := ExecutionIsRun(ys, turns, k - 1);
      AlwaysSane(ys, turns, k - 1);
      assert TakesTurn(ys, turns, k - 1);
      ss, es := FollowsStep(ys[0], ys[k - 1], turns[k - 1].worker, turns[k - 1].act, ys[k], ss, es);
    }
  }

  lemma {:induction false} AlwaysInv(ys: seq<System>, turns: seq<Turn>, k: nat)
    requires Execution(ys, turns) && NoneOpen(ys[0].store.db) && k <= |turns|
    ensures Inv(Abs(ys[k].store))
  {
    var ss, es := ExecutionIsRun(ys, turns, k);
    RunInv(ss, es, |es|);
  }

  /** Look-ups put no money in. */
  lemma {:induction false} LooksPayNothing(es: seq<Event>, n: string)
    ensures RechargedBy(Writing(es), n) == RechargedBy(es, n) && RechargedInAll(Writing(es)) == RechargedInAll(es)
    decreases |es|
  {
    if es != [] {
      var front, e := es[..|es| - 1], es[|es| - 1];
      LooksPayNothing(front, n);
      if e.q.Fill? {
        assert Writing(es) == Writing(front);
      } else {
        assert Writing(es) == Writing(front) + [e] && Writing(es)[..|Writing(front)|] == Writing(front);
      }
    }
  }

  /** So the accounts hold however requests interleave, and wherever the server started. */
  lemma {:induction false} AccountsHold(ys: seq<System>, turns: seq<Turn>, k: nat, n: string)
    requires Execution(ys, turns) && k <= |turns| && n in ys[0].store.db.users
    ensures AccountsRight(ys[0].store.db, ys[k].store.db, ys[k].log, n)
  {
    var ss, es := ExecutionIsRun(ys, turns, k);
    RunAccounts(ss, es, n);
    LooksPayNothing(es, n);
  }

  // ---- The writing requests alone ----

  /** `ss` is a run of the shop by the logged requests alone, from `init`, that ends alike. */
  ghost predicate Serial(init: System, a: System, ss: seq<State>) {
    && Run(ss, a.log) && ss[0] == Abs(init.store) && NoneOpen(ss[0].db)
    && Alike(Abs(a.store), ss[|a.log|])
  }

  lemma {:induction false} AlikeOn(s: State, t: State, u: State)
    requires Alike(s, t) && Alike(t, u)
    ensures Alike(s, u)
  {
    forall c | c in s.db.commodities.Keys ensures ShelfOf(s, c) == ShelfOf(u, c) { assert ShelfOf(s, c) == ShelfOf(t, c); }
    forall n | n in s.db.users.Keys ensures BalanceOf(s, n) == BalanceOf(u, n) { assert BalanceOf(s, n) == BalanceOf(t, n); }
  }

  lemma {:induction false} SerialStep(init: System, a: System, w: nat, act: Act, b: System, ss: seq<State>) returns (ss': seq<State>)
    requires Sane(a) && Do(a, w, act, b) && Serial(init, a, ss) && Inv(Abs(a.store))
    ensures Serial(init, b, ss')
  {
    var ids, names := StoreStep(a, w, act, b);
    WritesAreLogged(a, w, act, b);
    ss' := ss;
    if act.Write? {
      var e := Event(Wants(a.workers[w].task), act.reply);
      RunInv(ss, a.log, |a.log|);
      var next := StepAlike(Abs(a.store), ss[|a.log|], e.q, e.r, Abs(b.store));
      RunMore(ss, a.log, e, next);
      ss' := ss + [next];
    } else {
      LookedAlike(Abs(a.store), ids, names);
      AlikeOn(Abs(b.store), Abs(a.store), ss[|a.log|]);
    }
  }

  /** From a start that left no order PENDING: the writing requests alone, one after the other
    in the order in which they held the lock, give the same replies and the same tables, and
    every look-up sees the same: no reader, and no interleaving, ever shows. `ss` is that
    sequential run. */
  lemma {:induction false} Serialisable(ys: seq<System>, turns: seq<Turn>, k: nat) returns (ss: seq<State>)
    requires Execution(ys, turns) && NoneOpen(ys[0].store.db) && k <= |turns|
    ensures Run(ss, ys[k].log) && ss[0] == Abs(ys[0].store) && NoneOpen(ss[0].db)
    ensures ys[k].store.db == ss[|ys[k].log|].db
    ensures Alike(Abs(ys[k].store), ss[|ys[k].log|])
  {
    ss := [Abs(ys[0].store)];
    for i := 0 to k
      invariant Serial(ys[0], ys[i], ss)
    {
      AlwaysSane(ys, turns, i);
      AlwaysInv(ys, turns, i);
      assert TakesTurn(ys, turns, i);
      ss := SerialStep(ys[0], ys[i], turns[i].worker, turns[i].act, ys[i + 1], ss);
    }
  }

  // ---- What readers see ----

  /** The object shows what `s` says of the thing it stands for. */
  predicate Shows(thing: Thing, s: State) {
    match thing
    case Good(i, n, shelf) => i in s.db.commodities && s.db.commodities[i].name == n && shelf == ShelfOf(s, i)
    case Account(i, n, balance) => n in s.db.users && s.db.users[n].id == i && balance == BalanceOf(s, n)
  }

  lemma {:induction false} SlotShows(s: Store, key: Key, r: Ref)
    requires Coherent(s) && Slot(s, key) == Some(r)
    ensures r in s.heap && Shows(s.heap[r], Abs(s))
  {
    match key
    case ByName(n) => assert IsGood(s, r); assert s.heap[r].id in Abs(s).shelf;
    case ById(i) => assert IsGood(s, r); assert s.heap[r].id in Abs(s).shelf;
    case ByUser(n) => assert IsAccount(s, r); assert s.heap[r].username in Abs(s).purse;
  }

  lemma {:induction false} ShowsAlike(thing: Thing, s: State, t: State)
    requires Shows(thing, s) && Alike(s, t)
    ensures Shows(thing, t)
  {
  }

  /** Every object that a look-up has returned shows, at any moment, what the sequential run of
    the writing requests up to then says: stock and prices, or the balance. Carts and orders are
    read from the tables, which are those of that run. */
  lemma {:induction false} ReadersSeeTheRun(ys: seq<System>, turns: seq<Turn>, k: nat, key: Key, r: Ref) returns (ss: seq<State>)
    requires Execution(ys, turns) && NoneOpen(ys[0].store.db) && k <= |turns| && (key, r) in ys[k].handed
    ensures Run(ss, ys[k].log) && ss[0] == Abs(ys[0].store) && ss[|ys[k].log|].db == ys[k].store.db
    ensures r in ys[k].store.heap && Shows(ys[k].store.heap[r], ss[|ys[k].log|])
  {
    ss := Serialisable(ys, turns, k);
    AlwaysSane(ys, turns, k);
    SlotShows(ys[k].store, key, r);
    ShowsAlike(ys[k].store.heap[r], Abs(ys[k].store), ss[|ys[k].log|]);
  }

  ghost predicate ReadsAt(a: System, w: nat) { w in a.workers && IsRunning(a.workers[w], Shared) }

  ghost predicate SameMoment(a: System, b: System) {
    b.log == a.log && b.store.db == a.store.db && forall r :: r in a.store.heap ==> r in b.store.heap && b.store.heap[r] == a.store.heap[r]
  }

  lemma {:induction false} BesideReader(a: System, w: nat, act: Act, b: System, v: nat)
    requires LockHeld(a.workers) && ModesRight(a.workers) && Do(a, w, act, b) && ReadsAt(a, v)
    ensures SameMoment(a, b)
  {
    OnlyWritesWrite(a, w, act, b);
  }

  /** And all that one reader sees, from its first look-up to its last, it sees of one moment of
    that run: while it holds the lock no request is logged, no table and no object changes. */
  lemma {:induction false} ReaderSeesOneMoment(ys: seq<System>, turns: seq<Turn>, j: nat, k: nat, w: nat)
    requires Execution(ys, turns) && j <= k <= |turns| && forall i :: j <= i <= k ==> ReadsAt(ys[i], w)
    ensures SameMoment(ys[j], ys[k])
    decreases k
  {
    if j < k {
      ReaderSeesOneMoment(ys, turns, j, k - 1, w);
      AlwaysSane(ys, turns, k - 1);
      assert TakesTurn(ys, turns, k - 1) && ReadsAt(ys[k - 1], w);
      BesideReader(ys[k - 1], turns[k - 1].worker, turns[k - 1].act, ys[k], w);
    }
  }

  // ---- Row ids ----

  /** Whoever inserts a row and answers with its id, or caches an object under it, has the id of
    that very row, although the connection's last row id is shared by all workers. */
  lemma {:induction false} RowIdIsOwn(ys: seq<System>, turns: seq<Turn>, k: nat)
    requires Execution(ys, turns) && k < |turns| && turns[k].act.Write?
    ensures turns[k].worker in ys[k].workers && ys[k].workers[turns[k].worker].Running?
    ensures var a, b, q, r := ys[k].store, ys[k + 1].store, Wants(ys[k].workers[turns[k].worker].task), turns[k].act.reply;
      && (q.By? && r.Ordered? && r.checkout.Placed? ==> r.checkout.id !in a.db.orders && r.checkout.id in b.db.orders)
      && (AddsGood(q, r) ==> HasGood(b, q.op.name) && b.heap[b.nameMap[q.op.name]].id !in a.db.commodities)
      && (AddsUser(q, r) ==> q.name !in a.db.users && HasUser(b, q.name))
  {
    var a, t, b := ys[k], turns[k], ys[k + 1];
    AlwaysSane(ys, turns, k);
    assert TakesTurn(ys, turns, k);
    OwnRow(a, t.worker, t.act.reply, b);
  }

  /** The object cached under this name carries the id of the row of this name. */
  ghost predicate HasGood(s: Store, name: string) {
    && name in s.nameMap && s.nameMap[name] in s.heap && s.heap[s.nameMap[name]].Good?
    && var g := s.heap[s.nameMap[name]];
      g.id in s.db.commodities && s.db.commodities[g.id].name == name && g.id in s.idMap && s.idMap[g.id] == s.nameMap[name]
  }

  ghost predicate HasUser(s: Store, n: string) {
    && n in s.userMap && s.userMap[n] in s.heap && s.heap[s.userMap[n]].Account?
    && n in s.db.users && s.heap[s.userMap[n]].id == s.db.users[n].id
  }

  lemma {:induction false} NewOrderRow(s: State, q: Request, r: Reply, s': State)
    requires BooksFine(s) && Step(s, q, r, s') && q.By? && r.Ordered? && r.checkout.Placed?
    ensures r.checkout.id !in s.db.orders && r.checkout.id in s'.db.orders
  {
    var s1 := LoadPurses(s, {q.name});
    PlacedId(s, q, r, s');
    PlacedOrder(s1, s1.db.users[q.name].id, q.op.now);
  }

  lemma {:induction false} GoodCached(m: Store, b: Store, x: Ref, id: int, name: string)
    requires Coherent(b) && PutsGood(m, b, x, id, name)
    ensures HasGood(b, name) && b.heap[b.nameMap[name]].id == id
  {
    assert b.nameMap[name] == x && IsGood(b, x);
  }

  lemma {:induction false} UserCached(m: Store, b: Store, x: Ref, id: int, name: string)
    requires Coherent(b) && PutsUser(m, b, x, id, name)
    ensures HasUser(b, name)
  {
    assert b.userMap[name] == x && IsAccount(b, x);
  }

  lemma {:induction false} EffectRow(a: Store, b: Store, q: Request, r: Reply, looks: seq<(Key, Ref)>,
                                     inserted: Option<int>, readBack: Option<int>)
    requires Coherent(a) && BooksFine(Abs(a)) && Effect(a, b, q, r, looks, inserted, readBack)
    requires readBack.Some? ==> readBack == inserted
    ensures AddsGood(q, r) ==> HasGood(b, q.op.name) && b.heap[b.nameMap[q.op.name]].id !in a.db.commodities
    ensures AddsUser(q, r) ==> q.name !in a.db.users && HasUser(b, q.name)
  {
    EffectRows(a, b, q, r, looks, inserted, readBack);
    EffectKeeps(a, b, q, r, looks, inserted, readBack);
    ReindexedRow(FetchedAll(a, looks), b, q, r, readBack);
  }

  lemma {:induction false} ReindexedRow(m: Store, b: Store, q: Request, r: Reply, id: Option<int>)
    requires Coherent(b) && Reindexed(m, b, q, r, id) && RowIsNew(m.db, b.db, q, r, id)
    ensures AddsGood(q, r) ==> HasGood(b, q.op.name) && b.heap[b.nameMap[q.op.name]].id !in m.db.commodities
    ensures AddsUser(q, r) ==> q.name !in m.db.users && HasUser(b, q.name)
  {
    if AddsGood(q, r) {
      var x: Ref :| PutsGood(m, b, x, id.value, q.op.name);
      GoodCached(m, b, x, id.value, q.op.name);
    } else if AddsUser(q, r) {
      var x: Ref :| PutsUser(m, b, x, id.value, q.name);
      UserCached(m, b, x, id.value, q.name);
    }
  }

  lemma {:induction false} OwnRow(a: System, w: nat, reply: Reply, b: System)
    requires Sane(a) && Do(a, w, Write(reply), b)
    ensures var q := Wants(a.workers[w].task);
      && (q.By? && reply.Ordered? && reply.checkout.Placed? ==>
          reply.checkout.id !in a.store.db.orders && reply.checkout.id in b.store.db.orders)
      && (AddsGood(q, reply) ==> HasGood(b.store, q.op.name) && b.store.heap[b.store.nameMap[q.op.name]].id !in a.store.db.commodities)
      && (AddsUser(q, reply) ==> q.name !in a.store.db.users && HasUser(b.store, q.name))
  {
    var p, q := a.workers[w], Wants(a.workers[w].task);
    OwnReadBack(a, w);
    var r, looks :| Effect(a.store, b.store, q, r, looks, p.inserted, p.readBack) && reply == Told(r, p.readBack);
    ToldRight(a.store, b.store, q, r, looks, p.inserted, p.readBack);
    EffectRow(a.store, b.store, q, r, looks, p.inserted, p.readBack);
    if q.By? && reply.Ordered? && reply.checkout.Placed? { NewOrderRow(Abs(a.store), q, reply, Abs(b.store)); }
  }

  /** At every moment one writer runs alone, or there are readers only, who cannot write. */
  lemma {:induction false} WritersRunAlone(ys: seq<System>, turns: seq<Turn>, k: nat, v: nat, w: nat)
    requires Execution(ys, turns) && k <= |turns| && v != w && v in ys[k].workers && w in ys[k].workers
    requires ys[k].workers[v].Running? && ys[k].workers[w].Running?
    ensures !MayWrite(ys[k].workers[v].task) && !MayWrite(ys[k].workers[w].task)
    ensures IsRunning(ys[k].workers[v], Shared) && IsRunning(ys[k].workers[w], Shared)
  {
    AlwaysSane(ys, turns, k);
    if MayWrite(ys[k].workers[v].task) { WritersAreExclusive(ys[k].workers[v].task); }
    if MayWrite(ys[k].workers[w].task) { WritersAreExclusive(ys[k].workers[w].task); }
  }
}
