/** Paying for an order: what merchants are credited, and where the money goes. */
module Payments {
  import opened Sums
  import opened Tables
  import opened Shop
  import opened Invariants

  // ---- Two ways of crediting merchants ----

  /** The amounts of one merchant on one order never pull in opposite directions. */
  ghost predicate SameSign(m: map<int, real>) {
    NoneNegative(m) || NonePositive(m)
  }

  /** The positive part of a sum is zero only when it has no terms. */
  lemma {:induction false} PositivePart<K>(m: map<K, real>)
    ensures 0.0 <= Sum(Positive(m))
    ensures Sum(Positive(m)) == 0.0 <==> forall k :: k in m ==> m[k] <= 0.0
  {
    var up, zero: map<K, real> := Positive(m), map k | k in m :: 0.0;
    SumZero(zero);
    SumBelow(zero, up);
    if Sum(up) == 0.0 {
      forall k | k in m ensures m[k] <= 0.0 { assert up[k] == zero[k]; }
    }
    if forall k :: k in m ==> m[k] <= 0.0 { assert up == zero; }
  }

  ghost predicate NoneNegative<K>(due: map<K, real>) {
    forall k :: k in due ==> 0.0 <= due[k]
  }

  ghost predicate NonePositive<K>(due: map<K, real>) {
    forall k :: k in due ==> due[k] <= 0.0
  }

  /** Dropping the negative entries of a sum raises it, unless there are none. */
  lemma {:induction false} PositiveParts<K>(m: map<K, real>)
    ensures Sum(m) <= Sum(Positive(m)) && 0.0 <= Sum(Positive(m))
    ensures Sum(Positive(m)) == Sum(m) <==> NoneNegative(m)
    ensures Sum(Positive(m)) == 0.0 <==> NonePositive(m)
  {
    var minus: map<K, real> := map k | k in m :: -m[k];
    SumAdd(m, Positive(minus), Positive(m));
    PositivePart(m);
    PositivePart(minus);
    assert (forall k :: k in minus ==> minus[k] <= 0.0) <==> NoneNegative(m);
  }

  /** Crediting line by line and crediting the merchant's sum agree exactly when the
    merchant's line amounts have one sign. */
  lemma {:induction false} SplitsAgree(owner: map<int, string>, due: map<int, real>, n: string)
    ensures Credit(PerLine, owner, due, n) == Credit(Grouped, owner, due, n)
      <==> SameSign(SalesLines(owner, due, n))
  {
    PositiveParts(SalesLines(owner, due, n));
  }

  lemma {:induction false} AmountsNonneg(lines: map<int, Line>)
    requires LinesFine(lines)
    ensures NoneNegative(Amounts(lines))
  {
  }

  /** When nothing due is negative, a merchant is credited exactly the sum of their lines. */
  lemma {:induction false} CreditIsSales(how: Split, owner: map<int, string>, due: map<int, real>, n: string)
    requires NoneNegative(due)
    ensures Credit(how, owner, due, n) == Sales(owner, due, n)
    ensures 0.0 <= Credit(how, owner, due, n)
    ensures !Sells(owner, due.Keys, n) ==> Sales(owner, due, n) == 0.0
  {
    var m := SalesLines(owner, due, n);
    var credits := CreditLines(owner, due, n);
    forall c | c in due ensures 0.0 <= m[c] && credits[c] == m[c] {
      assert 0.0 <= due[c];
    }
    assert credits == m;
    var zero: map<int, real> := map c | c in m :: 0.0;
    SumZero(zero);
    SumBelow(zero, m);
    if !Sells(owner, due.Keys, n) {
      forall c | c in due ensures m[c] == zero[c] { assert c in due.Keys; }
      assert m == zero;
    }
  }

  // ---- Balances after a payment ----

  ghost function Debit(users: map<string, UserRow>, uid: int, lines: map<int, Line>, n: string): real
    requires n in users
  {
    if users[n].id == uid then Total(lines) else 0.0
  }

  ghost predicate Purses(s: State) {
    UsersSound(s.db.users, s.db.lastUser) && PursesAgree(s.purse, s.db.users) && NobodyInDebt(s.db.users)
  }

  lemma {:induction false} SettledBalance(s: State, uid: int, lines: map<int, Line>, how: Split, n: string)
    requires Purses(s) && NoneNegative(Amounts(lines)) && CanPay(s, uid, lines) && n in s.db.users
    ensures Settled(s, uid, lines, how, n)
      == s.db.users[n].balance - Debit(s.db.users, uid, lines, n) + Sales(Owners(s.db), Amounts(lines), n)
    ensures 0.0 <= Settled(s, uid, lines, how, n)
  {
    CreditIsSales(how, Owners(s.db), Amounts(lines), n);
    if s.db.users[n].id == uid {
      var m :| Found(s, uid, m) && Total(lines) <= BalanceOf(s, m);
      assert m == n;
    }
  }

  /** Every balance moves by what the user pays and what the user sells, and by nothing else. */
  lemma {:induction false} ChargeBalance(s: State, uid: int, lines: map<int, Line>, how: Split, n: string)
    requires Purses(s) && NoneNegative(Amounts(lines)) && CanPay(s, uid, lines) && n in s.db.users
    ensures Charge(s, uid, lines, how).db.users[n].balance
      == s.db.users[n].balance - Debit(s.db.users, uid, lines, n) + Sales(Owners(s.db), Amounts(lines), n)
    ensures 0.0 <= Charge(s, uid, lines, how).db.users[n].balance
  {
    SettledBalance(s, uid, lines, how, n);
    if !Party(s.db, uid, lines, n) {
      CreditIsSales(how, Owners(s.db), Amounts(lines), n);
      assert Amounts(lines).Keys == lines.Keys;
    }
  }

  /** A payment leaves everyone known, nobody in debt and the cached balances exact. */
  lemma {:induction false} ChargePurses(s: State, uid: int, lines: map<int, Line>, how: Split)
    requires Purses(s) && NoneNegative(Amounts(lines)) && CanPay(s, uid, lines)
    ensures var s1 := Charge(s, uid, lines, how);
      SamePeople(s.db.users, s1.db.users) && NobodyInDebt(s1.db.users) && PursesAgree(s1.purse, s1.db.users)
  {
    forall n | n in s.db.users ensures 0.0 <= Charge(s, uid, lines, how).db.users[n].balance {
      ChargeBalance(s, uid, lines, how, n);
    }
  }

  lemma {:induction false} ChargeInv(s: State, uid: int, lines: map<int, Line>, how: Split)
    requires Inv(s) && LinesFine(lines) && CanPay(s, uid, lines)
    ensures Inv(Charge(s, uid, lines, how))
  {
    AmountsNonneg(lines);
    ChargePurses(s, uid, lines, how);
    BalancesChange(s, Charge(s, uid, lines, how).db.users, Charge(s, uid, lines, how).purse);
  }

  lemma {:induction false} SettleInv(s: State, uid: int, lines: map<int, Line>, how: Split, o: int)
    requires Inv(s) && LinesFine(lines) && CanPay(s, uid, lines) && o in s.db.orders
    ensures Inv(Mark(Charge(s, uid, lines, how), o, Paid))
  {
    ChargeInv(s, uid, lines, how);
    MarkInv(Charge(s, uid, lines, how), o, Paid);
  }

  // ---- No money is made or lost by a payment ----

  function Balances(users: map<string, UserRow>): map<string, real> {
    map n | n in users :: users[n].balance
  }

  ghost function Money(users: map<string, UserRow>): real { Sum(Balances(users)) }

  lemma {:induction false} SumSingle<K>(m: map<K, real>, k: K)
    requires k in m && forall j :: j in m && j != k ==> m[j] == 0.0
    ensures Sum(m) == m[k]
  {
    SumPick(m, k);
    SumZero(m - {k});
  }

  ghost function SalesByName(owner: map<int, string>, due: map<int, real>, names: set<string>): map<string, real> {
    map n | n in names :: Sales(owner, due, n)
  }

  lemma {:induction false} SalesPick(owner: map<int, string>, due: map<int, real>, c: int, n: string)
    requires c in due
    ensures Sales(owner, due, n) == SalesLines(owner, due, n)[c] + Sales(owner, due - {c}, n)
  {
    SumPick(SalesLines(owner, due, n), c);
    assert SalesLines(owner, due, n) - {c} == SalesLines(owner, due - {c}, n);
  }

  ghost predicate SellersKnown(owner: map<int, string>, due: map<int, real>, names: set<string>) {
    forall c :: c in due ==> c in owner && owner[c] in names
  }

  /** One line more: its seller's sales grow by what is due, nobody else's. */
  lemma {:induction false} SalesMore(owner: map<int, string>, due: map<int, real>, names: set<string>, c: int)
    requires c in due && c in owner && owner[c] in names
    ensures Sum(SalesByName(owner, due, names)) == due[c] + Sum(SalesByName(owner, due - {c}, names))
  {
    var share: map<string, real> := map n | n in names :: if owner[c] == n then due[c] else 0.0;
    forall n | n in names ensures Sales(owner, due, n) == share[n] + Sales(owner, due - {c}, n) {
      SalesPick(owner, due, c, n);
    }
    SumAdd(share, SalesByName(owner, due - {c}, names), SalesByName(owner, due, names));
    SumSingle(share, owner[c]);
  }

  /** Adding up per merchant and adding up per line are the same double sum. */
  lemma {:induction false} SalesAddUp(owner: map<int, string>, due: map<int, real>, names: set<string>)
    requires SellersKnown(owner, due, names)
    ensures Sum(SalesByName(owner, due, names)) == Sum(due)
    decreases due.Keys
  {
    if due.Keys == {} {
      forall n | n in names ensures Sales(owner, due, n) == 0.0 { SumZero(SalesLines(owner, due, n)); }
      SumZero(SalesByName(owner, due, names));
    } else {
      var c := Pick(due);
      SalesAddUp(owner, due - {c}, names);
      SalesMore(owner, due, names, c);
      SumPick(due, c);
    }
  }

  /** A ledger in which every entry moves by income minus expense. */
  lemma {:induction false} TransfersAddUp(before: map<string, real>, after: map<string, real>,
                                          debits: map<string, real>, credits: map<string, real>)
    requires before.Keys == after.Keys == debits.Keys == credits.Keys
    requires forall n :: n in before ==> after[n] == before[n] - debits[n] + credits[n]
    ensures Sum(after) == Sum(before) - Sum(debits) + Sum(credits)
  {
    var gross: map<string, real> := map n | n in before :: before[n] + credits[n];
    SumAdd(before, credits, gross);
    SumAdd(after, debits, gross);
  }

  lemma {:induction false} DebitsAddUp(s: State, uid: int, lines: map<int, Line>, debits: map<string, real>)
    requires UsersSound(s.db.users, s.db.lastUser) && CanPay(s, uid, lines)
    requires debits == map n | n in s.db.users :: Debit(s.db.users, uid, lines, n)
    ensures Sum(debits) == Total(lines)
  {
    var m :| Found(s, uid, m) && Total(lines) <= BalanceOf(s, m);
    forall n | n in debits && n != m ensures debits[n] == 0.0 {
      assert s.db.users[n].id != uid;
    }
    SumSingle(debits, m);
  }

  /** Whoever sells nothing on the order is credited nothing, whatever the amounts. */
  lemma {:induction false} NoCredit(how: Split, owner: map<int, string>, due: map<int, real>, n: string)
    requires !Sells(owner, due.Keys, n)
    ensures Credit(how, owner, due, n) == 0.0
  {
    forall c | c in due ensures SalesLines(owner, due, n)[c] == 0.0 { assert c in due.Keys; }
    SumZero(SalesLines(owner, due, n));
    SumZero(CreditLines(owner, due, n));
  }

  ghost function CreditByName(how: Split, owner: map<int, string>, due: map<int, real>, names: set<string>): map<string, real> {
    map n | n in names :: Credit(how, owner, due, n)
  }

  ghost predicate Moves(users: map<string, UserRow>, users': map<string, UserRow>, debits: map<string, real>,
                        credits: map<string, real>, n: string)
    requires n in users
  {
    n in users' && n in debits && n in credits && users'[n].balance == users[n].balance - debits[n] + credits[n]
  }

  lemma {:induction false} BalancesMove(users: map<string, UserRow>, users': map<string, UserRow>,
                                        debits: map<string, real>, credits: map<string, real>)
    requires users'.Keys == users.Keys == debits.Keys == credits.Keys
    requires forall n :: n in users ==> Moves(users, users', debits, credits, n)
    ensures Money(users') == Money(users) - Sum(debits) + Sum(credits)
  {
    forall n | n in users ensures Balances(users')[n] == Balances(users)[n] - debits[n] + credits[n] {
      assert Moves(users, users', debits, credits, n);
    }
    TransfersAddUp(Balances(users), Balances(users'), debits, credits);
  }

  lemma {:induction false} ChargeKeys(s: State, uid: int, lines: map<int, Line>, how: Split)
    ensures Charge(s, uid, lines, how).db.users.Keys == s.db.users.Keys
  {
  }

  lemma {:induction false} ChargeMoves(s: State, uid: int, lines: map<int, Line>, how: Split, n: string,
                                       debits: map<string, real>, credits: map<string, real>)
    requires PursesAgree(s.purse, s.db.users) && n in s.db.users
    requires debits == map m | m in s.db.users :: Debit(s.db.users, uid, lines, m)
    requires credits == CreditByName(how, Owners(s.db), Amounts(lines), s.db.users.Keys)
    ensures Moves(s.db.users, Charge(s, uid, lines, how).db.users, debits, credits, n)
  {
    assert Amounts(lines).Keys == lines.Keys;
    if !Party(s.db, uid, lines, n) { NoCredit(how, Owners(s.db), Amounts(lines), n); }
  }

  /** What a payment does to the sum of all balances, whatever the amounts. */
  lemma {:induction false} PaymentMoney(s: State, uid: int, lines: map<int, Line>, how: Split)
    requires UsersSound(s.db.users, s.db.lastUser) && PursesAgree(s.purse, s.db.users) && CanPay(s, uid, lines)
    ensures Money(Charge(s, uid, lines, how).db.users)
      == Money(s.db.users) - Total(lines) + Sum(CreditByName(how, Owners(s.db), Amounts(lines), s.db.users.Keys))
  {
    var debits: map<string, real> := map n | n in s.db.users :: Debit(s.db.users, uid, lines, n);
    var credits := CreditByName(how, Owners(s.db), Amounts(lines), s.db.users.Keys);
    var users' := Charge(s, uid, lines, how).db.users;
    DebitsAddUp(s, uid, lines, debits);
    forall n | n in s.db.users ensures Moves(s.db.users, users', debits, credits, n) {
      ChargeMoves(s, uid, lines, how, n, debits, credits);
    }
    ChargeKeys(s, uid, lines, how);
    BalancesMove(s.db.users, users', debits, credits);
  }

  lemma {:induction false} PerLineAddsUp(owner: map<int, string>, due: map<int, real>, names: set<string>)
    requires SellersKnown(owner, due, names)
    ensures Sum(CreditByName(PerLine, owner, due, names)) == Sum(due) <==> NoneNegative(due)
  {
    var up := Positive(due);
    forall n | n in names ensures CreditLines(owner, due, n) == SalesLines(owner, up, n) {}
    assert CreditByName(PerLine, owner, due, names) == SalesByName(owner, up, names);
    SalesAddUp(owner, up, names);
    PositiveParts(due);
  }

  lemma {:induction false} GroupedAddsUp(owner: map<int, string>, due: map<int, real>, names: set<string>)
    requires SellersKnown(owner, due, names)
    ensures Sum(CreditByName(Grouped, owner, due, names)) == Sum(due) <==> NoneNegative(SalesByName(owner, due, names))
  {
    SalesAddUp(owner, due, names);
    PositiveParts(SalesByName(owner, due, names));
    assert CreditByName(Grouped, owner, due, names) == Positive(SalesByName(owner, due, names));
  }

  /** What `addBalance` is asked for is never negative: no line amount when merchants are
    credited line by line, no merchant's sum when they are credited once. */
  ghost predicate NothingRefused(how: Split, owner: map<int, string>, due: map<int, real>, names: set<string>) {
    match how
    case PerLine => NoneNegative(due)
    case Grouped => NoneNegative(SalesByName(owner, due, names))
  }

  lemma {:induction false} CreditsAddUp(how: Split, owner: map<int, string>, due: map<int, real>, names: set<string>)
    requires SellersKnown(owner, due, names)
    ensures Sum(CreditByName(how, owner, due, names)) == Sum(due) <==> NothingRefused(how, owner, due, names)
  {
    match how
    case PerLine => PerLineAddsUp(owner, due, names);
    case Grouped => GroupedAddsUp(owner, due, names);
  }

  /** A payment moves money between users, and keeps the sum of all balances exactly when no
    credit is refused for being negative. */
  lemma {:induction false} PaymentKeepsMoney(s: State, uid: int, lines: map<int, Line>, how: Split)
    requires UsersSound(s.db.users, s.db.lastUser) && PursesAgree(s.purse, s.db.users) && CanPay(s, uid, lines)
    requires SellersKnown(Owners(s.db), Amounts(lines), s.db.users.Keys)
    ensures Money(Charge(s, uid, lines, how).db.users) == Money(s.db.users)
      <==> NothingRefused(how, Owners(s.db), Amounts(lines), s.db.users.Keys)
  {
    PaymentMoney(s, uid, lines, how);
    CreditsAddUp(how, Owners(s.db), Amounts(lines), s.db.users.Keys);
  }

  lemma {:induction false} FineSellers(t: Database, lines: map<int, Line>)
    requires RowsFine(t.commodities, t.users.Keys) && lines.Keys <= t.commodities.Keys
    ensures SellersKnown(Owners(t), Amounts(lines), t.users.Keys)
  {
    forall c | c in Amounts(lines) ensures c in Owners(t) && Owners(t)[c] in t.users.Keys {
      assert c in lines.Keys && RowFine(t.commodities[c], t.users.Keys);
    }
  }

  lemma {:induction false} FineRefusesNothing(how: Split, owner: map<int, string>, due: map<int, real>, names: set<string>)
    requires NoneNegative(due)
    ensures NothingRefused(how, owner, due, names)
  {
    forall n | n in names ensures 0.0 <= Sales(owner, due, n) { CreditIsSales(how, owner, due, n); }
  }
}
