/**
 * The history screen (`components/Transactions.tsx`): the type and date
 * filter and the CSV export of what it shows. Dates are timestamps; how a
 * date is printed in the export (`toLocaleDateString`) is a parameter.
 */
module TxHistory {
  import opened Wrappers
  import opened Types
  import Arrays
  import Strings

  /** The three type tabs. */
  datatype TypeFilter = All | SalesOnly | ExpensesOnly

  predicate TypeMatch(f: TypeFilter, k: TxType)
  {
    match f
    case All => true
    case SalesOnly => k == Sale
    case ExpensesOnly => k == Expense
  }

  /** A date bound; None is an empty date field, which constrains nothing. Both bounds are inclusive. */
  predicate InRange(date: int, start: Option<int>, end: Option<int>)
  {
    (start.None? || date >= start.value) && (end.None? || date <= end.value)
  }

  predicate Shown(f: TypeFilter, start: Option<int>, end: Option<int>, t: Transaction)
  {
    TypeMatch(f, t.kind) && InRange(t.date, start, end)
  }

  /** The `filtered` memo: the transactions on the selected tab and between the selected dates, in order. */
  function Filtered(ts: seq<Transaction>, f: TypeFilter, start: Option<int>, end: Option<int>): (r: seq<Transaction>)
    ensures Arrays.IsSubsequence(r, ts)
    ensures forall t :: t in r ==> t in ts && TypeMatch(f, t.kind) && InRange(t.date, start, end)
    ensures forall t :: t in ts && TypeMatch(f, t.kind) && InRange(t.date, start, end) ==> t in r
    ensures f == All && start.None? && end.None? ==> r == ts
    ensures f == SalesOnly ==> forall t :: t in r ==> t.kind == Sale
    ensures f == ExpensesOnly ==> forall t :: t in r ==> t.kind == Expense
  {
    Arrays.Filter(ts, t => Shown(f, start, end, t))
  }

  /** The expense tab shows `expense` records only: purchases and other outflows appear on neither tab but 'all'. */
  lemma PurchasesOnlyUnderAll(ts: seq<Transaction>, start: Option<int>, end: Option<int>)
    ensures forall t :: t in Filtered(ts, SalesOnly, start, end) + Filtered(ts, ExpensesOnly, start, end) ==>
      (t.kind == Sale || t.kind == Expense)
  {
  }

  // ------------------------------------------------------------ CSV export

  const Headers: seq<string> := ["Date", "Type", "Description", "Categorie", "Montant (FCFA)", "Methode"]

  /** The type column: 'Vente' for a sale, 'Depense' for every other type. */
  function TypeLabel(k: TxType): (r: string)
    ensures r == "Vente" <==> k == Sale
    ensures r == "Vente" || r == "Depense"
  {
    if k == Sale then "Vente" else "Depense"
  }

  function Row(t: Transaction, dateText: int -> string): (r: seq<string>)
    ensures |r| == 6
  {
    [dateText(t.date), TypeLabel(t.kind), t.description, t.category, Strings.IntToString(t.amount), t.paymentMethod]
  }

  function HeaderLine(): string { Strings.Join(Headers, ",") }

  function RowLine(t: Transaction, dateText: int -> string): string
  {
    Strings.Join(Row(t, dateText), ",")
  }

  function RowLines(ts: seq<Transaction>, dateText: int -> string): (r: seq<string>)
    ensures |r| == |ts|
    ensures forall i :: 0 <= i < |ts| ==> r[i] == RowLine(ts[i], dateText)
  {
    seq(|ts|, i requires 0 <= i < |ts| => RowLine(ts[i], dateText))
  }

  /** `exportCSV`'s content: the header line, then one line per transaction shown, joined by newlines. */
  function Csv(ts: seq<Transaction>, dateText: int -> string): string
  {
    Strings.Join([HeaderLine()] + RowLines(ts, dateText), "\n")
  }

  /** No text a transaction contributes to its line holds a newline. */
  predicate NoNewlines(ts: seq<Transaction>, dateText: int -> string)
  {
    forall i :: 0 <= i < |ts| ==>
      '\n' !in dateText(ts[i].date) && '\n' !in ts[i].description
      && '\n' !in ts[i].category && '\n' !in ts[i].paymentMethod
  }

  lemma RowLineNoNewline(t: Transaction, dateText: int -> string)
    requires '\n' !in dateText(t.date) && '\n' !in t.description && '\n' !in t.category && '\n' !in t.paymentMethod
    ensures '\n' !in RowLine(t, dateText)
  {
    var r := Row(t, dateText);
    JoinKeepsOut(r, ',', '\n');
  }

  /** Joining pieces that lack a character with a separator other than it gives a string without it. */
  lemma {:induction false} JoinKeepsOut(xs: seq<string>, sep: char, c: char)
    requires sep != c && forall i :: 0 <= i < |xs| ==> c !in xs[i]
    ensures c !in Strings.Join(xs, [sep])
    decreases |xs|
  {
    if |xs| > 1 {
      JoinKeepsOut(xs[1..], sep, c);
    }
  }

  /**
   * Read back line by line, the export is the header followed by exactly one
   * line per transaction shown, in order, when no field holds a newline.
   */
  lemma CsvLines(ts: seq<Transaction>, dateText: int -> string)
    requires NoNewlines(ts, dateText)
    ensures Strings.Split(Csv(ts, dateText), '\n') == [HeaderLine()] + RowLines(ts, dateText)
    ensures |Strings.Split(Csv(ts, dateText), '\n')| == |ts| + 1
  {
    var lines := [HeaderLine()] + RowLines(ts, dateText);
    assert '\n' !in HeaderLine() by {
      JoinKeepsOut(Headers, ',', '\n');
    }
    forall i | 1 <= i < |lines| ensures '\n' !in lines[i] {
      RowLineNoNewline(ts[i - 1], dateText);
    }
    Strings.SplitJoin(lines, '\n');
  }

  /** The header has six columns. */
  lemma HeaderColumns()
    ensures |Strings.Split(HeaderLine(), ',')| == 6
  {
    var h := Headers;
    assert forall i :: 0 <= i < |h| ==> ',' !in h[i] by {
      assert ',' !in h[0] && ',' !in h[1] && ',' !in h[2];
      assert ',' !in h[3] && ',' !in h[4] && ',' !in h[5];
    }
    Strings.CountAllAbsent(h, ',');
    Strings.CountJoin(h, ',');
    Strings.SplitCount(Strings.Join(h, ","), ',');
  }

  /**
   * Fields are joined without quoting: a row splits into six columns plus
   * one more for every comma inside its date, description, category or
   * payment method.
   */
  lemma RowColumns(t: Transaction, dateText: int -> string)
    ensures |Strings.Split(RowLine(t, dateText), ',')| ==
      6 + Strings.Count(dateText(t.date), ',') + Strings.Count(t.description, ',')
        + Strings.Count(t.category, ',') + Strings.Count(t.paymentMethod, ',')
  {
    var r := Row(t, dateText);
    Strings.SplitCount(RowLine(t, dateText), ',');
    Strings.CountJoin(r, ',');
    Strings.CountAbsent(TypeLabel(t.kind), ',');
    Strings.CountAbsent(Strings.IntToString(t.amount), ',');
    var c := ',';
    assert Strings.CountAll(r[5..], c) == Strings.Count(t.paymentMethod, c) by {
      assert r[5..][1..] == [];
    }
    assert Strings.CountAll(r[4..], c) == Strings.Count(t.paymentMethod, c) by {
      assert r[4..][1..] == r[5..];
    }
    assert Strings.CountAll(r[3..], c) == Strings.Count(t.category, c) + Strings.Count(t.paymentMethod, c) by {
      assert r[3..][1..] == r[4..];
    }
    assert Strings.CountAll(r[2..], c) == Strings.Count(t.description, c) + Strings.Count(t.category, c) + Strings.Count(t.paymentMethod, c) by {
      assert r[2..][1..] == r[3..];
    }
    assert Strings.CountAll(r[1..], c) == Strings.CountAll(r[2..], c) by {
      assert r[1..][1..] == r[2..];
    }
  }
}
