/**
 * The figures and the quick-entry logic of the home screen
 * (`components/Dashboard.tsx`): the cash totals, how a quick entry is
 * classified, and the product looked up by a scanned code.
 */
module Dashboard {
  import opened Wrappers
  import opened Types
  import Arrays
  import Strings
  import Ledger

  // ------------------------------------------------------------ sums

  /** `xs.reduce((acc, x) => acc + f(x), 0)`; integer addition makes the fold order irrelevant. */
  function SumOf<T>(xs: seq<T>, f: T -> int): int
    decreases |xs|
  {
    if xs == [] then 0 else f(xs[0]) + SumOf(xs[1..], f)
  }

  /** The sum of `f` over the elements satisfying `p`, without building the filtered list. */
  function SumWhere<T>(xs: seq<T>, p: T -> bool, f: T -> int): int
    decreases |xs|
  {
    if xs == [] then 0 else (if p(xs[0]) then f(xs[0]) else 0) + SumWhere(xs[1..], p, f)
  }

  /** Filtering then summing is summing the selected elements. */
  lemma {:induction false} SumFilter<T>(xs: seq<T>, p: T -> bool, f: T -> int)
    ensures SumOf(Arrays.Filter(xs, p), f) == SumWhere(xs, p, f)
    decreases |xs|
  {
    if xs != [] {
      SumFilter(xs[1..], p, f);
      if p(xs[0]) {
        assert Arrays.Filter(xs, p)[1..] == Arrays.Filter(xs[1..], p);
      }
    }
  }

  lemma {:induction false} SumWhereConcat<T>(a: seq<T>, b: seq<T>, p: T -> bool, f: T -> int)
    ensures SumWhere(a + b, p, f) == SumWhere(a, p, f) + SumWhere(b, p, f)
    decreases |a|
  {
    if a != [] {
      assert (a + b)[1..] == a[1..] + b;
      SumWhereConcat(a[1..], b, p, f);
    } else {
      assert a + b == b;
    }
  }

  // ------------------------------------------------------------ stats

  function Amount(t: Transaction): int { t.amount }
  predicate IsSale(t: Transaction) { t.kind == Sale }
  predicate IsExpense(t: Transaction) { t.kind == Expense }
  predicate Unpaid(d: Debt) { d.status != Paid }
  function Remaining(d: Debt): int { d.remainingAmount }
  function Balance(s: Supplier): int { s.balance }

  /** The `stats` memo of the home screen. */
  datatype Stats = Stats(sales: int, expenses: int, totalDebt: int, totalSupplierDebt: int, balance: int)

  function ComputeStats(ts: seq<Transaction>, ds: seq<Debt>, ss: seq<Supplier>): (r: Stats)
    ensures r.balance == r.sales - r.expenses
    ensures r.sales == SumWhere(ts, IsSale, Amount)
    ensures r.expenses == SumWhere(ts, IsExpense, Amount)
    ensures r.totalDebt == SumWhere(ds, Unpaid, Remaining)
    ensures r.totalSupplierDebt == SumOf(ss, Balance)
  {
    var sales := SumOf(Arrays.Filter(ts, IsSale), Amount);
    var expenses := SumOf(Arrays.Filter(ts, IsExpense), Amount);
    var totalDebt := SumOf(Arrays.Filter(ds, Unpaid), Remaining);
    SumFilter(ts, IsSale, Amount);
    SumFilter(ts, IsExpense, Amount);
    SumFilter(ds, Unpaid, Remaining);
    Stats(sales, expenses, totalDebt, SumOf(ss, Balance), sales - expenses)
  }

  /** Transactions that are neither sales nor expenses (purchases, repayments, ...) move no total. */
  lemma OtherKindsIgnored(ts: seq<Transaction>, ds: seq<Debt>, ss: seq<Supplier>)
    requires forall i :: 0 <= i < |ts| ==> ts[i].kind != Sale && ts[i].kind != Expense
    ensures ComputeStats(ts, ds, ss).sales == 0 && ComputeStats(ts, ds, ss).expenses == 0
    ensures ComputeStats(ts, ds, ss).balance == 0
  {
    NoneSelected(ts, IsSale, Amount);
    NoneSelected(ts, IsExpense, Amount);
  }

  lemma {:induction false} NoneSelected<T>(xs: seq<T>, p: T -> bool, f: T -> int)
    requires forall i :: 0 <= i < |xs| ==> !p(xs[i])
    ensures SumWhere(xs, p, f) == 0
    decreases |xs|
  {
    if xs != [] {
      NoneSelected(xs[1..], p, f);
    }
  }

  /** The totals of a history made of two parts are the sums of the parts' totals. */
  lemma StatsSplit(a: seq<Transaction>, b: seq<Transaction>, ds: seq<Debt>, ss: seq<Supplier>)
    ensures ComputeStats(a + b, ds, ss).sales == ComputeStats(a, ds, ss).sales + ComputeStats(b, ds, ss).sales
    ensures ComputeStats(a + b, ds, ss).expenses == ComputeStats(a, ds, ss).expenses + ComputeStats(b, ds, ss).expenses
  {
    SumWhereConcat(a, b, IsSale, Amount);
    SumWhereConcat(a, b, IsExpense, Amount);
  }

  /** Recording a transaction moves the cash balance by its amount, in the direction of its type. */
  lemma AddTransactionMovesBalance(t: TxDraft, id: string, now: int, ts: seq<Transaction>, ds: seq<Debt>, ss: seq<Supplier>)
    ensures var before := ComputeStats(ts, ds, ss);
      var after := ComputeStats([Ledger.NewTransaction(t, id, now)] + ts, ds, ss);
      && after.sales == before.sales + (if t.kind == Sale then t.amount else 0)
      && after.expenses == before.expenses + (if t.kind == Expense then t.amount else 0)
      && after.balance == before.balance + (if t.kind == Sale then t.amount else if t.kind == Expense then -t.amount else 0)
  {
    var n := Ledger.NewTransaction(t, id, now);
    assert ([n] + ts)[1..] == ts;
  }

  /** What a debt still counts for in `totalDebt`. */
  function Owed(d: Debt): int { if Unpaid(d) then d.remainingAmount else 0 }

  lemma {:induction false} SumWhereMonotone(xs: seq<Debt>, ys: seq<Debt>)
    requires |xs| == |ys|
    requires forall i :: 0 <= i < |xs| ==> Owed(ys[i]) <= Owed(xs[i])
    ensures SumWhere(ys, Unpaid, Remaining) <= SumWhere(xs, Unpaid, Remaining)
    decreases |xs|
  {
    if xs != [] {
      SumWhereMonotone(xs[1..], ys[1..]);
    }
  }

  /**
   * A repayment of a non-negative amount never raises the outstanding debt,
   * as long as no debt is negative and settled debts are at zero.
   */
  lemma RepaymentLowersDebt(ds: seq<Debt>, id: string, amt: int, ts: seq<Transaction>, ss: seq<Supplier>)
    requires amt >= 0 && Ledger.SettledCleared(ds)
    requires forall i :: 0 <= i < |ds| ==> ds[i].remainingAmount >= 0
    ensures ComputeStats(ts, Ledger.PayDebts(ds, id, amt), ss).totalDebt <= ComputeStats(ts, ds, ss).totalDebt
  {
    SumWhereMonotone(ds, Ledger.PayDebts(ds, id, amt));
  }

  /** How many suppliers carry the id. */
  function CountId(ss: seq<Supplier>, id: string): nat
    decreases |ss|
  {
    if ss == [] then 0 else (if ss[0].id == id then 1 else 0) + CountId(ss[1..], id)
  }

  /** A balance update moves `totalSupplierDebt` by the amount once per supplier carrying the id. */
  lemma {:induction false} BalanceUpdateMovesSupplierDebt(ss: seq<Supplier>, id: string, amt: int)
    ensures SumOf(Ledger.AdjustBalances(ss, id, amt), Balance) == SumOf(ss, Balance) + amt * CountId(ss, id)
    decreases |ss|
  {
    if ss != [] {
      assert Ledger.AdjustBalances(ss, id, amt)[1..] == Ledger.AdjustBalances(ss[1..], id, amt);
      BalanceUpdateMovesSupplierDebt(ss[1..], id, amt);
    }
  }

  /** The same, read off the dashboard: only `totalSupplierDebt` moves, by the amount per matching supplier. */
  lemma SupplierStatsAfterUpdate(ts: seq<Transaction>, ds: seq<Debt>, ss: seq<Supplier>, id: string, amt: int)
    ensures var before := ComputeStats(ts, ds, ss);
      var after := ComputeStats(ts, ds, Ledger.AdjustBalances(ss, id, amt));
      after == before.(totalSupplierDebt := before.totalSupplierDebt + amt * CountId(ss, id))
  {
    BalanceUpdateMovesSupplierDebt(ss, id, amt);
  }

  // ------------------------------------------------------------ quick entry

  /** The simplified screen checks for 'Achat' only; the full screen also for 'Dépense'. */
  datatype Screen = Simplified | Full

  function QuickKind(screen: Screen, desc: string): (k: TxType)
    ensures k == Expense <==> Strings.Contains(desc, "Achat") || (screen == Full && Strings.Contains(desc, "Dépense"))
    ensures k == Sale || k == Expense
  {
    if Strings.Contains(desc, "Achat") || (screen == Full && Strings.Contains(desc, "Dépense")) then Expense else Sale
  }

  /** The VALIDER button: nothing without an amount, otherwise the draft handed to `onAddTransaction`. */
  function QuickEntry(screen: Screen, amountText: string, desc: string): (r: Option<TxDraft>)
    ensures r.None? <==> amountText == ""
    ensures r.Some? ==> r.value.kind == QuickKind(screen, desc) && r.value.amount == Strings.NumberOf(amountText)
    ensures r.Some? ==> r.value.description == desc && r.value.category == "" && r.value.paymentMethod == ""
  {
    if amountText == "" then None
    else Some(TxDraft(QuickKind(screen, desc), Strings.NumberOf(amountText), desc, "", "", None, None, None))
  }

  /** The two big buttons of the simplified screen are classified as their labels say. */
  lemma SimplifiedButtons()
    ensures QuickKind(Simplified, "Vente") == Sale
    ensures QuickKind(Simplified, "Achat/Dépense") == Expense
  {
    Strings.ContainsFirstChar("Vente", "Achat");
    assert "Achat/Dépense"[0..5] == "Achat";
    Strings.ContainsAt("Achat/Dépense", "Achat", 0);
  }

  /** The two screens disagree on a description naming only 'Dépense'. */
  lemma ScreensDisagree()
    ensures QuickKind(Simplified, "Dépense") == Sale
    ensures QuickKind(Full, "Dépense") == Expense
  {
    Strings.ContainsFirstChar("Dépense", "Achat");
    Strings.ContainsAt("Dépense", "Dépense", 0);
  }

  /** Whatever the simplified screen calls an expense, the full screen does too. */
  lemma FullScreenAgreesOnExpenses(desc: string)
    ensures QuickKind(Simplified, desc) == Expense ==> QuickKind(Full, desc) == Expense
  {
  }

  // ------------------------------------------------------------ scanning

  /** The quick-entry form: the amount and description fields and whether it is open. */
  datatype QuickForm = QuickForm(amount: string, desc: string, open: bool)

  predicate HasCode(code: string, p: Product) { p.sku == code || p.id == code }

  /** The scanner callback: the first product whose sku or id is the code fills the form and opens it. */
  function Scan(ps: seq<Product>, code: string, f: QuickForm): (r: QuickForm)
    ensures (forall i :: 0 <= i < |ps| ==> !HasCode(code, ps[i])) ==> r == f
    ensures (exists i :: 0 <= i < |ps| && HasCode(code, ps[i])) ==>
      exists i :: 0 <= i < |ps| && HasCode(code, ps[i]) && (forall j :: 0 <= j < i ==> !HasCode(code, ps[j]))
        && r == QuickForm(Strings.IntToString(ps[i].price), ps[i].name, true)
  {
    match Arrays.Find(ps, p => HasCode(code, p))
    case None => f
    case Some(p) => QuickForm(Strings.IntToString(p.price), p.name, true)
  }

  /** Scanning a product and confirming records a transaction of exactly its price, named after it. */
  lemma ScanThenConfirm(ps: seq<Product>, code: string, f: QuickForm, screen: Screen, i: nat)
    requires i < |ps| && HasCode(code, ps[i]) && forall j :: 0 <= j < i ==> !HasCode(code, ps[j])
    ensures var g := Scan(ps, code, f);
      QuickEntry(screen, g.amount, g.desc) == Some(TxDraft(QuickKind(screen, ps[i].name), ps[i].price, ps[i].name, "", "", None, None, None))
  {
    var g := Scan(ps, code, f);
    assert g == QuickForm(Strings.IntToString(ps[i].price), ps[i].name, true);
    Strings.NumberOfIntToString(ps[i].price);
  }
}
