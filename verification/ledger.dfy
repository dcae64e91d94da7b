/**
 * The application's in-memory books (`App.tsx`): transactions, products,
 * debts, suppliers, the audit log and the signed-in profile, and the
 * handlers the screens call to replace them. Ids and timestamps, which the
 * application draws from `Math.random` and the clock, are parameters.
 */
module Ledger {
  import opened Wrappers
  import opened Storage
  import opened Types
  import Strings
  import SentinelX

  // ------------------------------------------------------------ records

  /** `x || fallback` on a string: the empty string counts as missing. */
  function OrElse(s: string, fallback: string): string
  {
    if s == "" then fallback else s
  }

  /** The record `addTransaction` builds from what the screen supplied. */
  function NewTransaction(t: TxDraft, id: string, now: int): (r: Transaction)
    ensures r.id == id && r.date == now
    ensures r.kind == t.kind && r.amount == t.amount && r.description == t.description
    ensures r.customerName == t.customerName && r.discount == t.discount && r.taxAmount == t.taxAmount
    ensures r.category != "" && (t.category != "" ==> r.category == t.category)
    ensures r.paymentMethod != "" && (t.paymentMethod != "" ==> r.paymentMethod == t.paymentMethod)
    ensures t.category == "" ==> r.category == "Vente Directe"
    ensures t.paymentMethod == "" ==> r.paymentMethod == "Cash"
  {
    Transaction(id, now, t.kind, t.amount, t.description,
                OrElse(t.category, "Vente Directe"), OrElse(t.paymentMethod, "Cash"),
                t.customerName, t.discount, t.taxAmount)
  }

  /** The audit detail of a transaction: the direction of the money, then the amount. */
  function FinanceDetails(t: TxDraft): (r: string)
    ensures t.kind == Sale ==> "Encaissement" <= r
    ensures t.kind != Sale ==> "Décaissement" <= r
    ensures Strings.Contains(r, Strings.IntToString(t.amount))
  {
    var head := if t.kind == Sale then "Encaissement: " else "Décaissement: ";
    var r := head + Strings.IntToString(t.amount) + " F";
    assert r[|head|..|head| + |Strings.IntToString(t.amount)|] == Strings.IntToString(t.amount);
    Strings.ContainsAt(r, Strings.IntToString(t.amount), |head|);
    r
  }

  /** The fixed business profile given to whoever signs in. */
  function NewProfile(u: AuthUser): (p: UserProfile)
    ensures p.id == u.id && p.name == u.name && p.role == u.role
    ensures !p.isSimplifiedMode && p.businessType == General
    ensures p.receiptConfig.headerNote == Some(p.businessName)
    ensures p.receiptConfig.footerNote == Some(ThanksNote)
  {
    UserProfile(u.id, u.name, u.role, "AESCOMPT Business", General, "Bamako", None, false,
                ReceiptConfig(Some("AESCOMPT Business"), Some(ThanksNote), None, Some(true), None),
                "Français")
  }

  /** A new debt: nothing repaid yet, so the whole amount is outstanding and it is pending. */
  function NewDebt(d: DebtDraft, id: string, now: int): (r: Debt)
    ensures r.id == id && r.date == now && r.status == Pending
    ensures r.remainingAmount == r.amount == d.amount
    ensures r.customerName == d.customerName && r.phone == d.phone
    ensures r.description == d.description && r.dueDate == d.dueDate
  {
    Debt(id, d.customerName, d.phone, d.amount, d.amount, d.description, now, d.dueDate, Pending)
  }

  /** One debt after a repayment of `amt`: the remainder clamps at 0 and the status follows it. */
  function Repaid(d: Debt, amt: int): (r: Debt)
    ensures r.remainingAmount >= 0
    ensures r.remainingAmount == if d.remainingAmount - amt <= 0 then 0 else d.remainingAmount - amt
    ensures r.status == Paid <==> d.remainingAmount - amt <= 0
    ensures r.status == Paid <==> r.remainingAmount == 0
    ensures r == d.(remainingAmount := r.remainingAmount, status := r.status)
  {
    var left := d.remainingAmount - amt;
    d.(remainingAmount := if left < 0 then 0 else left, status := if left <= 0 then Paid else Pending)
  }

  /** `debts.map(...)`: every debt with the id is repaid, every other one is left as it was. */
  function PayDebts(ds: seq<Debt>, id: string, amt: int): (r: seq<Debt>)
    ensures |r| == |ds|
    ensures forall i :: 0 <= i < |ds| && ds[i].id != id ==> r[i] == ds[i]
    ensures forall i :: 0 <= i < |ds| && ds[i].id == id ==> r[i] == Repaid(ds[i], amt)
    ensures forall i :: 0 <= i < |ds| ==> r[i].id == ds[i].id
  {
    seq(|ds|, i requires 0 <= i < |ds| => if ds[i].id == id then Repaid(ds[i], amt) else ds[i])
  }

  /** Every settled debt has nothing left to pay. */
  ghost predicate SettledCleared(ds: seq<Debt>)
  {
    forall i :: 0 <= i < |ds| && ds[i].status == Paid ==> ds[i].remainingAmount == 0
  }

  /** Adding and repaying debts keep every settled debt at zero. */
  lemma SettledClearedKept(ds: seq<Debt>, d: DebtDraft, id: string, now: int, payId: string, amt: int)
    requires SettledCleared(ds)
    ensures SettledCleared(ds + [NewDebt(d, id, now)])
    ensures SettledCleared(PayDebts(ds, payId, amt))
  {
    var added := ds + [NewDebt(d, id, now)];
    assert forall i :: 0 <= i < |ds| ==> added[i] == ds[i];
  }

  /** The converse does not hold: a new debt of 0 is pending although nothing is owed. */
  lemma ZeroDebtPending(d: DebtDraft, id: string, now: int)
    requires d.amount == 0
    ensures NewDebt(d, id, now).status == Pending && NewDebt(d, id, now).remainingAmount == 0
  {
  }

  /** A negative repayment is not refused: it raises what is owed, past the original amount if need be. */
  lemma NegativeRepaymentRaises(d: Debt, amt: int)
    requires amt < 0 && d.remainingAmount >= 0
    ensures Repaid(d, amt).remainingAmount == d.remainingAmount - amt > d.remainingAmount
    ensures Repaid(d, amt).status == Pending
  {
  }

  /** What is left to pay lies between 0 and the amount lent. */
  ghost predicate WithinAmount(d: Debt)
  {
    0 <= d.remainingAmount <= d.amount
  }

  /** A non-negative repayment keeps a debt's remainder between 0 and its amount. */
  lemma RepaidWithinAmount(d: Debt, amt: int)
    requires WithinAmount(d) && amt >= 0
    ensures WithinAmount(Repaid(d, amt))
    ensures Repaid(d, amt).amount == d.amount
  {
  }

  /**
   * Debts created with a non-negative amount and repaid with non-negative
   * amounts always owe between 0 and what was lent.
   */
  lemma DebtsStayWithinAmount(ds: seq<Debt>, d: DebtDraft, id: string, now: int, payId: string, amt: int)
    requires forall i :: 0 <= i < |ds| ==> WithinAmount(ds[i])
    requires d.amount >= 0 && amt >= 0
    ensures forall i :: 0 <= i < |ds| + 1 ==> WithinAmount((ds + [NewDebt(d, id, now)])[i])
    ensures forall i :: 0 <= i < |ds| ==> WithinAmount(PayDebts(ds, payId, amt)[i])
  {
    forall i | 0 <= i < |ds| ensures WithinAmount(PayDebts(ds, payId, amt)[i]) {
      if ds[i].id == payId {
        RepaidWithinAmount(ds[i], amt);
      }
    }
  }

  /** Nothing refuses a negative amount: such a debt starts with a negative remainder. */
  lemma NegativeDebtBelowZero(d: DebtDraft, id: string, now: int)
    requires d.amount < 0
    ensures NewDebt(d, id, now).remainingAmount < 0 && !WithinAmount(NewDebt(d, id, now))
  {
  }

  /** A new supplier: no business and no balance yet. */
  function NewSupplier(s: SupplierDraft, id: string): (r: Supplier)
    ensures r.id == id && r.totalBusiness == 0 && r.balance == 0
    ensures r.name == s.name && r.contact == s.contact && r.category == s.category && r.address == s.address
    ensures r.lastDelivery == None
  {
    Supplier(id, s.name, s.contact, s.category, s.address, 0, 0, None)
  }

  /** `suppliers.map(...)`: the signed amount is added to the balance of every supplier with the id. */
  function AdjustBalances(ss: seq<Supplier>, id: string, amt: int): (r: seq<Supplier>)
    ensures |r| == |ss|
    ensures forall i :: 0 <= i < |ss| && ss[i].id != id ==> r[i] == ss[i]
    ensures forall i :: 0 <= i < |ss| && ss[i].id == id ==> r[i] == ss[i].(balance := ss[i].balance + amt)
  {
    seq(|ss|, i requires 0 <= i < |ss| => if ss[i].id == id then ss[i].(balance := ss[i].balance + amt) else ss[i])
  }

  /** `products.map(...)`: the stock of every product with the id becomes `qty`; nothing else changes. */
  function SetStock(ps: seq<Product>, id: string, qty: int): (r: seq<Product>)
    ensures |r| == |ps|
    ensures forall i :: 0 <= i < |ps| && ps[i].id != id ==> r[i] == ps[i]
    ensures forall i :: 0 <= i < |ps| && ps[i].id == id ==> r[i] == ps[i].(stock := qty)
  {
    seq(|ps|, i requires 0 <= i < |ps| => if ps[i].id == id then ps[i].(stock := qty) else ps[i])
  }

  /** Setting the same stock twice is setting it once. */
  lemma SetStockIdempotent(ps: seq<Product>, id: string, qty: int)
    ensures SetStock(SetStock(ps, id, qty), id, qty) == SetStock(ps, id, qty)
  {
  }

  /** `u ? {...u, field: v} : null`: a profile edit that leaves a signed-out state signed out. */
  function EditProfile(u: Option<UserProfile>, f: UserProfile -> UserProfile): (r: Option<UserProfile>)
    ensures r.Some? <==> u.Some?
    ensures u.Some? ==> r.value == f(u.value)
  {
    if u.Some? then Some(f(u.value)) else None
  }

  function ToggleSimplified(u: UserProfile): (r: UserProfile)
    ensures r.isSimplifiedMode == !u.isSimplifiedMode
    ensures r.(isSimplifiedMode := u.isSimplifiedMode) == u
  {
    u.(isSimplifiedMode := !u.isSimplifiedMode)
  }

  /** Toggling twice gives back the profile. */
  lemma ToggleTwice(u: UserProfile)
    ensures ToggleSimplified(ToggleSimplified(u)) == u
  {
  }

  // ------------------------------------------------------------ persistence

  function TransactionsJson(ts: seq<Transaction>): (r: seq<Json>)
    ensures |r| == |ts|
    ensures forall i :: 0 <= i < |ts| ==> r[i] == TransactionJson(ts[i])
  {
    seq(|ts|, i requires 0 <= i < |ts| => TransactionJson(ts[i]))
  }

  function ProductsJson(ps: seq<Product>): seq<Json>
  {
    seq(|ps|, i requires 0 <= i < |ps| => ProductJson(ps[i]))
  }

  function DebtsJson(ds: seq<Debt>): seq<Json>
  {
    seq(|ds|, i requires 0 <= i < |ds| => DebtJson(ds[i]))
  }

  function SuppliersJson(ss: seq<Supplier>): seq<Json>
  {
    seq(|ss|, i requires 0 <= i < |ss| => SupplierJson(ss[i]))
  }

  /** The everything the application holds in memory. */
  datatype Books = Books(
    transactions: seq<Transaction>,
    products: seq<Product>,
    debts: seq<Debt>,
    suppliers: seq<Supplier>,
    auditLogs: seq<AuditLog>,
    user: Option<UserProfile>,
    isAuth: bool,
    receiptTx: Option<Transaction>)

  /** The store after the persist effect: the four lists always, the profile only when signed in. */
  function Persisted(m: map<string, string>, b: Books, c: Codec): map<string, string>
  {
    var m1 := m[TransactionsKey := c.stringify(JArr(TransactionsJson(b.transactions)))]
               [ProductsKey := c.stringify(JArr(ProductsJson(b.products)))]
               [DebtsKey := c.stringify(JArr(DebtsJson(b.debts)))]
               [SuppliersKey := c.stringify(JArr(SuppliersJson(b.suppliers)))];
    if b.user.Some? then m1[ProfileKey := c.stringify(ProfileJson(b.user.value))] else m1
  }

  /** Each list lands under its own key; the profile key is written only when someone is signed in. */
  lemma PersistedValues(m: map<string, string>, b: Books, c: Codec)
    ensures var p := Persisted(m, b, c);
      && p.Keys == m.Keys + {TransactionsKey, ProductsKey, DebtsKey, SuppliersKey} + (if b.user.Some? then {ProfileKey} else {})
      && p[TransactionsKey] == c.stringify(JArr(TransactionsJson(b.transactions)))
      && p[ProductsKey] == c.stringify(JArr(ProductsJson(b.products)))
      && p[DebtsKey] == c.stringify(JArr(DebtsJson(b.debts)))
      && p[SuppliersKey] == c.stringify(JArr(SuppliersJson(b.suppliers)))
      && (b.user.Some? ==> p[ProfileKey] == c.stringify(ProfileJson(b.user.value)))
      && (b.user.None? && ProfileKey in m ==> p[ProfileKey] == m[ProfileKey])
      && forall k :: k in m && k !in SentinelX.StoredKeys ==> p[k] == m[k]
  {
    SentinelX.KeysDistinct();
  }

  /** Transactions that carry distinct ids. */
  predicate DistinctIds(ts: seq<Transaction>)
  {
    forall i, j :: 0 <= i < j < |ts| ==> ts[i].id != ts[j].id
  }

  /** The transactions as written carry distinct `id` properties when the records do. */
  lemma TransactionsJsonDistinct(ts: seq<Transaction>)
    requires DistinctIds(ts)
    ensures SentinelX.IdsDistinct(TransactionsJson(ts))
  {
    var js := TransactionsJson(ts);
    forall i, j | 0 <= i < j < |js| ensures SentinelX.IdKey(js[i]) != SentinelX.IdKey(js[j]) {
      assert SentinelX.IdKey(js[i]) == Some(JStr(ts[i].id));
      assert SentinelX.IdKey(js[j]) == Some(JStr(ts[j].id));
    }
  }

  /**
   * What the application writes is what the scrubber accepts: once the
   * books are persisted with distinct transaction ids, a scrub of that store
   * repairs nothing, provided the profile key is sound (it is rewritten when
   * someone is signed in).
   */
  lemma PersistedNeedsNoRepair(m: map<string, string>, b: Books, c: Codec)
    requires Lawful(c) && DistinctIds(b.transactions)
    requires b.user.Some? || !SentinelX.IsCorrupt(m, c, ProfileKey)
    ensures SentinelX.TxShapeOk(Persisted(m, b, c), c)
    ensures SentinelX.Scrub(Persisted(m, b, c), c) == SentinelX.Outcome(Persisted(m, b, c), 0)
  {
    var p := Persisted(m, b, c);
    PersistedValues(m, b, c);
    var js := TransactionsJson(b.transactions);
    assert c.parse(p[TransactionsKey]) == Some(JArr(js));
    assert SentinelX.TxShapeOk(p, c) by {
      forall i | 0 <= i < |js| ensures js[i] != JNull {
        assert js[i].JObj?;
      }
    }
    assert c.parse(p[ProductsKey]).Some?;
    if b.user.Some? {
      assert c.parse(p[ProfileKey]).Some?;
    }
    assert SentinelX.ParsedTxs(p, c) == js;
    TransactionsJsonDistinct(b.transactions);
    SentinelX.CleanStoreUntouched(p, c);
  }

  // ------------------------------------------------------------ the store

  class Ledger {
    var transactions: seq<Transaction>
    var products: seq<Product>
    var debts: seq<Debt>
    var suppliers: seq<Supplier>
    var auditLogs: seq<AuditLog>
    var user: Option<UserProfile>
    var isAuth: bool
    /** The transaction whose receipt is open, if any. */
    var receiptTx: Option<Transaction>

    function State(): Books
      reads this
    {
      Books(transactions, products, debts, suppliers, auditLogs, user, isAuth, receiptTx)
    }

    constructor()
      ensures State() == Books([], [], [], [], [], None, false, None)
    {
      transactions, products, debts, suppliers, auditLogs := [], [], [], [], [];
      user, isAuth, receiptTx := None, false, None;
    }

    /** `addAudit`: the new entry goes first, so the log reads newest first. */
    method AddAudit(action: string, details: string, severity: Severity, id: string, now: int)
      modifies this
      ensures State() == old(State()).(auditLogs := [AuditLog(id, now, action, details, severity)] + old(auditLogs))
    {
      auditLogs := [AuditLog(id, now, action, details, severity)] + auditLogs;
    }

    /**
     * `addTransaction`: the completed record goes in front of the list, one
     * low-severity "Finance" entry goes in front of the log, and a sale
     * opens its receipt. The record and the log entry read the clock
     * separately (`now` and `auditNow`).
     */
    method AddTransaction(t: TxDraft, id: string, auditId: string, now: int, auditNow: int)
      modifies this
      ensures transactions == [NewTransaction(t, id, now)] + old(transactions)
      ensures auditLogs == [AuditLog(auditId, auditNow, "Finance", FinanceDetails(t), Low)] + old(auditLogs)
      ensures receiptTx == if t.kind == Sale then Some(NewTransaction(t, id, now)) else old(receiptTx)
      ensures State() == old(State()).(transactions := transactions, auditLogs := auditLogs, receiptTx := receiptTx)
    {
      var newT := NewTransaction(t, id, now);
      transactions := [newT] + transactions;
      AddAudit("Finance", FinanceDetails(t), Low, auditId, auditNow);
      if t.kind == Sale {
        receiptTx := Some(newT);
      }
    }

    /** `handleAuthSuccess`: install the fixed business profile and open the application. */
    method HandleAuthSuccess(u: AuthUser)
      modifies this
      ensures State() == old(State()).(user := Some(NewProfile(u)), isAuth := true)
    {
      user := Some(NewProfile(u));
      isAuth := true;
    }

    /** `onAddDebt` from the debts screen: a new pending debt at the end of the list. */
    method AddDebt(d: DebtDraft, id: string, now: int)
      modifies this
      ensures State() == old(State()).(debts := old(debts) + [NewDebt(d, id, now)])
    {
      debts := debts + [NewDebt(d, id, now)];
    }

    /** `onPayDebt`: repay every debt with the id. */
    method PayDebt(id: string, amt: int)
      modifies this
      ensures State() == old(State()).(debts := PayDebts(old(debts), id, amt))
    {
      debts := PayDebts(debts, id, amt);
    }

    /** `onAddSupplier` from the suppliers screen: a new supplier at the end of the list. */
    method AddSupplier(s: SupplierDraft, id: string)
      modifies this
      ensures State() == old(State()).(suppliers := old(suppliers) + [NewSupplier(s, id)])
    {
      suppliers := suppliers + [NewSupplier(s, id)];
    }

    /** `onUpdateBalance`. */
    method UpdateBalance(id: string, amt: int)
      modifies this
      ensures State() == old(State()).(suppliers := AdjustBalances(old(suppliers), id, amt))
    {
      suppliers := AdjustBalances(suppliers, id, amt);
    }

    /** The assistant's `onAddDebt` and `onAddSupplier`: the record is appended exactly as given. */
    method AppendDebt(d: Debt)
      modifies this
      ensures State() == old(State()).(debts := old(debts) + [d])
    {
      debts := debts + [d];
    }

    method AppendSupplier(s: Supplier)
      modifies this
      ensures State() == old(State()).(suppliers := old(suppliers) + [s])
    {
      suppliers := suppliers + [s];
    }

    /** `onAddProduct`: the product goes at the end. */
    method AddProduct(p: Product)
      modifies this
      ensures State() == old(State()).(products := old(products) + [p])
    {
      products := products + [p];
    }

    /** `onUpdateStock`. */
    method UpdateStock(id: string, qty: int)
      modifies this
      ensures State() == old(State()).(products := SetStock(old(products), id, qty))
    {
      products := SetStock(products, id, qty);
    }

    /** `onToggleSimplified`. */
    method ToggleSimplifiedMode()
      modifies this
      ensures State() == old(State()).(user := EditProfile(old(user), ToggleSimplified))
    {
      user := EditProfile(user, ToggleSimplified);
    }

    /** `onUpdateBusiness`: only the business type changes. */
    method UpdateBusiness(bt: BusinessType)
      modifies this
      ensures State() == old(State()).(user := EditProfile(old(user), (p: UserProfile) => p.(businessType := bt)))
    {
      user := EditProfile(user, (p: UserProfile) => p.(businessType := bt));
    }

    /** `onUpdateName`: only the business name changes. */
    method UpdateName(n: string)
      modifies this
      ensures State() == old(State()).(user := EditProfile(old(user), (p: UserProfile) => p.(businessName := n)))
    {
      user := EditProfile(user, (p: UserProfile) => p.(businessName := n));
    }

    /** `onUpdateReceiptConfig`: the receipt settings are replaced as a whole. */
    method UpdateReceiptConfig(rc: ReceiptConfig)
      modifies this
      ensures State() == old(State()).(user := EditProfile(old(user), (p: UserProfile) => p.(receiptConfig := rc)))
    {
      user := EditProfile(user, (p: UserProfile) => p.(receiptConfig := rc));
    }

    /** `onShowReceipt` from the history screen: the receipt opens on that transaction. */
    method ShowReceipt(t: Transaction)
      modifies this
      ensures State() == old(State()).(receiptTx := Some(t))
    {
      receiptTx := Some(t);
    }

    /** The receipt's `onClose`. */
    method CloseReceipt()
      modifies this
      ensures State() == old(State()).(receiptTx := None)
    {
      receiptTx := None;
    }

    /** The sign-out button: the session ends and the profile is dropped from memory. */
    method Logout()
      modifies this
      ensures State() == old(State()).(isAuth := false, user := None)
    {
      isAuth := false;
      user := None;
    }

    /** The persist effect: write the four lists, then the profile when one is signed in. */
    method Persist(ls: LocalStorage, c: Codec)
      modifies ls
      ensures ls.items == Persisted(old(ls.items), State(), c)
    {
      ls.SetItem(TransactionsKey, c.stringify(JArr(TransactionsJson(transactions))));
      ls.SetItem(ProductsKey, c.stringify(JArr(ProductsJson(products))));
      ls.SetItem(DebtsKey, c.stringify(JArr(DebtsJson(debts))));
      ls.SetItem(SuppliersKey, c.stringify(JArr(SuppliersJson(suppliers))));
      if user.Some? {
        ls.SetItem(ProfileKey, c.stringify(ProfileJson(user.value)));
      }
    }
  }

  /**
   * Signing out does not erase the stored profile: with no user in memory
   * the persist effect leaves the profile entry as it was, so the profile
   * is still there the next time the books are loaded.
   */
  lemma LogoutKeepsStoredProfile(m: map<string, string>, b: Books, c: Codec)
    requires ProfileKey in m
    ensures var p := Persisted(m, b.(isAuth := false, user := None), c);
      ProfileKey in p && p[ProfileKey] == m[ProfileKey]
  {
    PersistedValues(m, b.(isAuth := false, user := None), c);
  }
}
