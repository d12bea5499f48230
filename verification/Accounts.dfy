/** User objects and their cache (src/User.cpp). */
module Accounts {
  import opened Sums
  import opened Tables
  import opened Shop
  import opened Sqlite

  class User {
    const id: int
    const username: string
    const kind: UserKind
    var balance: real
    var password: string

    constructor (id: int, username: string, row: UserRow)
      ensures this.id == id && this.username == username && this.kind == row.kind
      ensures this.balance == row.balance && this.password == row.password
    {
      this.id, this.username, this.kind := id, username, row.kind;
      this.balance, this.password := row.balance, row.password;
    }

    /** Refuses an amount that is not positive. */
    method AddBalance(amount: real) returns (ok: bool)
      modifies this
      ensures ok <==> amount > 0.0
      ensures balance == old(balance) + Pos(amount)
    {
      if amount <= 0.0 { return false; }
      balance := balance + amount;
      ok := true;
    }

    /** Refuses an amount that is not positive or not covered. */
    method SubtractBalance(amount: real) returns (ok: bool)
      modifies this
      ensures ok <==> amount > 0.0 && amount <= old(balance)
      ensures balance == if ok then old(balance) - amount else old(balance)
    {
      if amount <= 0.0 { return false; }
      if balance < amount { return false; }
      balance := balance - amount;
      ok := true;
    }

    /** Keeps the encrypted form of a password of admissible length; `secret` stands for it. */
    method SetPassword(password: string, secret: string) returns (ok: bool)
      modifies this`password
      ensures ok <==> PasswordFits(password)
      ensures this.password == if ok then secret else old(this.password)
    {
      if password == "" { return false; }
      if |password| < MIN_PASSWORD_LENGTH || |password| > MAX_PASSWORD_LENGTH { return false; }
      this.password := secret;
      ok := true;
    }
  }

  class UserManager {
    const db: Connection
    var userMap: map<string, User>

    constructor (db: Connection)
      ensures this.db == db && userMap == map[]
    {
      this.db := db;
      userMap := map[];
    }

    /** Every entry sits under its own name and stands for the row of that name. */
    ghost predicate Fits(t: Database)
      reads this
    {
      && UsersSound(t.users, t.lastUser)
      && forall n :: n in userMap ==> Stands(userMap[n], n, t.users)
    }

    ghost predicate Valid()
      reads this, db
    {
      Fits(db.t)
    }

    /** The cache fits every state of the tables with these users. */
    lemma {:induction false} FitsUsers(t: Database, t': Database)
      requires Fits(t) && t'.users == t.users && t'.lastUser == t.lastUser
      ensures Fits(t')
    {
    }

    /** And the tables with one more user. */
    lemma {:induction false} StillFits(t: Database, t': Database, n: string)
      requires Fits(t) && n !in t.users && t'.lastUser == t.lastUser + 1
      requires n in t'.users && t'.users[n].id == t'.lastUser && t'.users == t.users[n := t'.users[n]]
      ensures Fits(t')
    {
    }

    static ghost predicate Stands(u: User, n: string, users: map<string, UserRow>) {
      u.username == n && n in users && users[n].id == u.id && users[n].kind == u.kind
    }

    ghost function Purse(): map<string, real>
      reads this, userMap.Values
    {
      map n | n in userMap :: userMap[n].balance
    }

    /** Every entry is still there, with the same object. */
    static predicate Keeps(a: map<string, User>, b: map<string, User>) {
      forall n :: n in a ==> n in b && b[n] == a[n]
    }

    static lemma {:induction false} KeepsOn(a: map<string, User>, b: map<string, User>, c: map<string, User>)
      requires Keeps(a, b) && Keeps(b, c)
      ensures Keeps(a, c)
    {
    }

    /** Entries are only ever added, and with objects nobody else holds. */
    twostate predicate Grows()
      reads this
    {
      && Keeps(old(userMap), userMap)
      && (forall u :: u in userMap.Values && u !in old(userMap.Values) ==> fresh(u))
    }

    /** A free name gains an object; the others stay as they are. */
    twostate lemma PurseGains(username: string, new u: User)
      requires username !in old(userMap) && userMap == old(userMap)[username := u]
      requires forall n :: n in old(userMap) ==> userMap[n].balance == old(userMap[n].balance)
      ensures Purse() == old(Purse())[username := u.balance]
    {
    }

    /** A new object for a row, put under its name. */
    method CacheRow(username: string) returns (u: User)
      requires Valid() && username in db.t.users && username !in userMap
      modifies this
      ensures Valid() && Grows()
      ensures username in userMap && userMap[username] == u
      ensures Purse() == old(Purse())[username := db.t.users[username].balance]
    {
      var row := db.t.users[username];
      u := new User(row.id, username, row);
      userMap := userMap[username := u];
      PurseGains(username, u);
    }

    method GetOrLoad(username: string) returns (u: User?)
      requires Valid()
      modifies this
      ensures Valid() && Grows()
      ensures u == null <==> username !in db.t.users
      ensures u != null ==> u.username == username && username in userMap && userMap[username] == u
      ensures Purse() == WithPurses(old(Purse()), db.t.users, {username})
    {
      WithPursesOne(Purse(), db.t.users, username);
      if username in userMap {
        u := userMap[username];
        assert Stands(u, username, db.t.users);
      } else if username in db.t.users {
        u := CacheRow(username);
      } else {
        u := null;
      }
    }

    method GetUserByUsername(username: string) returns (u: User?)
      requires Valid()
      modifies this
      ensures Valid() && Grows()
      ensures u == null <==> username !in db.t.users
      ensures u != null ==> u.username == username && username in userMap && userMap[username] == u
      ensures Purse() == WithPurses(old(Purse()), db.t.users, {username})
    {
      u := GetOrLoad(username);
    }

    /** Changing one object changes one entry, because no object sits under two names. */
    twostate lemma OnePurseChanged(u: User)
      requires Valid() && u.username in userMap && userMap[u.username] == u && userMap == old(userMap)
      requires forall n :: n in userMap && userMap[n] != u ==> userMap[n].balance == old(userMap[n].balance)
      ensures Purse() == old(Purse())[u.username := u.balance]
    {
      forall n | n in userMap && n != u.username ensures userMap[n].balance == old(userMap[n].balance) {
        assert Stands(userMap[n], n, db.t.users);
      }
    }

    /** The scan of the cache, in whatever order the map yields its entries. */
    method ScanForId(uid: int) returns (u: User?)
      requires Valid()
      ensures u == null ==> forall n :: n in userMap ==> db.t.users[n].id != uid
      ensures u != null ==> u.username in userMap && userMap[u.username] == u && u.id == uid
    {
      var rest := userMap.Keys;
      while rest != {}
        invariant rest <= userMap.Keys
        invariant forall n :: n in userMap && n !in rest ==> userMap[n].id != uid
      {
        var n := NextRow(rest);
        rest := rest - {n};
        assert Stands(userMap[n], n, db.t.users);
        if userMap[n].id == uid { return userMap[n]; }
      }
      assert forall n :: n in userMap ==> Stands(userMap[n], n, db.t.users);
      u := null;
    }

    /** SELECT username FROM users WHERE id = …; empty if there is no such row. */
    method NameOf(uid: int) returns (n: string)
      requires Valid()
      ensures n != "" ==> n in db.t.users && db.t.users[n].id == uid
      ensures n == "" ==> forall m :: m in db.t.users && m != "" ==> db.t.users[m].id != uid
    {
      n := "";
      if m :| m in db.t.users && db.t.users[m].id == uid { n := m; }
    }

    /** First the cache is scanned for the id, then the table. A row with an empty username
      counts as not found. */
    method GetUserById(uid: int) returns (u: User?)
      requires Valid()
      modifies this
      ensures Valid() && Grows()
      ensures u == null ==> (forall n :: !Found(State(db.t, map[], old(Purse())), uid, n)) && Purse() == old(Purse())
      ensures u != null ==> Found(State(db.t, map[], old(Purse())), uid, u.username)
      ensures u != null ==> u.username in userMap && userMap[u.username] == u
      ensures u != null ==> Purse() == WithPurses(old(Purse()), db.t.users, {u.username})
    {
      u := ScanForId(uid);
      if u != null {
        assert Stands(u, u.username, db.t.users);
        WithPursesOne(Purse(), db.t.users, u.username);
      } else {
        var username := NameOf(uid);
        assert Purse() == old(Purse());
        if username != "" { u := GetOrLoad(username); }
      }
    }

    method UpdateBalance(u: User)
      requires Valid() && u.username in userMap && userMap[u.username] == u
      modifies db`t
      ensures Valid()
      ensures db.t == old(db.t).(users := old(db.t).users[u.username := old(db.t).users[u.username].(balance := u.balance)])
    {
      assert Stands(u, u.username, db.t.users);
      db.SetBalance(u.id, u.balance);
      assert db.t.users == old(db.t).users[u.username := old(db.t).users[u.username].(balance := u.balance)];
    }

    method UpdatePassword(u: User)
      requires Valid() && u.username in userMap && userMap[u.username] == u
      modifies db`t
      ensures Valid()
      ensures db.t == old(db.t).(users := old(db.t).users[u.username := old(db.t).users[u.username].(password := u.password)])
    {
      assert Stands(u, u.username, db.t.users);
      db.SetPassword(u.id, u.password);
      assert db.t.users == old(db.t).users[u.username := old(db.t).users[u.username].(password := u.password)];
    }

    /** The second half of registering: the new object goes straight under its name. */
    method PutNew(id: int, username: string, kind: UserKind, secret: string)
      requires Valid() && username in db.t.users && db.t.users[username] == UserRow(id, kind, 0.0, secret)
      requires username !in userMap
      modifies this
      ensures Valid() && Grows()
      ensures Purse() == old(Purse())[username := 0.0]
    {
      var u := new User(id, username, UserRow(id, kind, 0.0, secret));
      userMap := userMap[username := u];
      PurseGains(username, u);
    }

    /** INSERT INTO users, and the new object straight into the cache. */
    method AddUser(kind: UserKind, username: string, secret: string) returns (ok: bool)
      requires Valid() && username !in userMap
      modifies this, db`t, db`faults
      ensures Valid() && Grows()
      ensures old(db.faults) <= db.faults && (!ok ==> username in old(db.t).users || old(db.faults) < db.faults)
      ensures ok ==> username !in old(db.t).users
      ensures Purse() == if ok then old(Purse())[username := 0.0] else old(Purse())
      ensures db.t == if !ok then old(db.t) else Enrolled(old(db.t), kind, username, secret)
    {
      var id;
      ok, id := db.InsertUser(username, kind, secret);
      assert Purse() == old(Purse());
      if ok {
        StillFits(old(db.t), db.t, username);
        PutNew(id, username, kind, secret);
      }
    }

    static function Enrolled(t: Database, kind: UserKind, username: string, secret: string): Database {
      t.(users := t.users[username := UserRow(t.lastUser + 1, kind, 0.0, secret)], lastUser := t.lastUser + 1)
    }

    static function KindOf(name: string): Option<UserKind> {
      if name == "Merchant" then Some(Merchant) else if name == "Consumer" then Some(Consumer) else None
    }

    static predicate Admits(kind: string, password: string) {
      KindOf(kind).Some? && PasswordFits(password)
    }

    /** Refuses an unknown type, a cached name and a password of the wrong length, in this order,
      before the table is asked. */
    method RegisterUser(kind: string, username: string, password: string, secret: string) returns (ok: bool)
      requires Valid()
      modifies this, db`t, db`faults
      ensures Valid() && Grows()
      ensures old(db.faults) <= db.faults
      ensures !ok ==> !Admits(kind, password) || username in old(db.t).users || old(db.faults) < db.faults
      ensures ok ==> Admits(kind, password) && username !in old(db.t).users
      ensures Purse() == if ok then old(Purse())[username := 0.0] else old(Purse())
      ensures db.t == if !ok then old(db.t) else Enrolled(old(db.t), KindOf(kind).value, username, secret)
    {
      if kind != "Merchant" && kind != "Consumer" { return false; }
      if username in userMap {
        assert Stands(userMap[username], username, db.t.users);
        return false;
      }
      if password == "" || |password| < MIN_PASSWORD_LENGTH || |password| > MAX_PASSWORD_LENGTH { return false; }
      ok := AddUser(KindOf(kind).value, username, secret);
    }
  }
}
