/**
 * The customer-credit screen (`components/DebtsModule.tsx`): the search
 * box, the number a reminder is sent to, and the checks on the two forms
 * before they call the application's handlers.
 */
module Debts {
  import opened Wrappers
  import opened Types
  import Arrays
  import Strings
  import Ledger

  /** The search rule: the name, case-insensitively, or a non-empty phone, verbatim. */
  predicate Matches(term: string, d: Debt)
  {
    Strings.Contains(Strings.Lower(d.customerName), Strings.Lower(term))
    || (d.phone != "" && Strings.Contains(d.phone, term))
  }

  /** The empty search term matches every record. */
  lemma EmptyTermMatches(ds: seq<Debt>)
    ensures forall d :: d in ds ==> Matches("", d)
  {
    forall d | d in ds ensures Matches("", d) {
      Strings.ContainsEmpty(Strings.Lower(d.customerName));
    }
  }

  /** The `filtered` list. */
  function Search(ds: seq<Debt>, term: string): (r: seq<Debt>)
    ensures Arrays.IsSubsequence(r, ds)
    ensures forall d :: d in r ==> d in ds && Matches(term, d)
    ensures forall d :: d in ds && Matches(term, d) ==> d in r
    ensures term == "" ==> r == ds
  {
    EmptyTermMatches(ds);
    Arrays.Filter(ds, d => Matches(term, d))
  }

  /** A newly added debt is found again by its customer's name. */
  lemma NewDebtFoundByName(ds: seq<Debt>, draft: DebtDraft, id: string, now: int)
    ensures Ledger.NewDebt(draft, id, now) in Search(ds + [Ledger.NewDebt(draft, id, now)], draft.customerName)
  {
    var n := Strings.Lower(draft.customerName);
    assert n[0..|n|] == n;
    Strings.ContainsAt(n, n, 0);
  }

  /** `sendWhatsAppReminder`'s number: exactly the digits of the phone, in order. */
  function ReminderNumber(d: Debt): (r: string)
    ensures Strings.AllDigits(r)
    ensures Arrays.IsSubsequence(r, d.phone)
    ensures forall c :: c in d.phone && Strings.IsDigit(c) ==> c in r
    ensures forall c :: multiset(r)[c] == if Strings.IsDigit(c) then multiset(d.phone)[c] else 0
    ensures Strings.AllDigits(d.phone) ==> r == d.phone
  {
    Strings.Digits(d.phone)
  }

  /** Cleaning a cleaned number changes nothing. */
  lemma ReminderNumberStable(d: Debt)
    ensures Strings.Digits(ReminderNumber(d)) == ReminderNumber(d)
  {
  }

  // ------------------------------------------------------------ the forms

  /** The new-credit form; every field is the text of its input. */
  datatype DebtForm = DebtForm(customerName: string, phone: string, amount: string, description: string, dueDate: string)

  const BlankForm: DebtForm := DebtForm("", "", "", "", "")

  /**
   * The validate button: refused (form kept) when the name, amount or phone
   * is empty; otherwise the draft handed to `onAddDebt` and a blank form.
   */
  function SubmitDebt(f: DebtForm): (r: (Option<DebtDraft>, DebtForm))
    ensures r.0.None? <==> f.customerName == "" || f.amount == "" || f.phone == ""
    ensures r.0.None? ==> r.1 == f
    ensures r.0.Some? ==> r.1 == BlankForm
    ensures r.0.Some? ==> r.0.value == DebtDraft(f.customerName, f.phone, Strings.NumberOf(f.amount), f.description, f.dueDate)
  {
    if f.customerName == "" || f.amount == "" || f.phone == "" then (None, f)
    else (Some(DebtDraft(f.customerName, f.phone, Strings.NumberOf(f.amount), f.description, f.dueDate)), BlankForm)
  }

  /** A submitted form is blank, so submitting again at once is refused. */
  lemma SubmitTwiceRefused(f: DebtForm)
    ensures SubmitDebt(SubmitDebt(f).1).0.None?
  {
  }

  /** The call `onPayDebt(id, amount)`. */
  datatype PayCall = PayCall(id: string, amount: int)

  /** The repayment button: nothing for an empty field, otherwise this debt's id and the amount as a number. */
  function SubmitPayment(d: Debt, amountText: string): (r: Option<PayCall>)
    ensures r.None? <==> amountText == ""
    ensures r.Some? ==> r.value.id == d.id && r.value.amount == Strings.NumberOf(amountText)
  {
    if amountText == "" then None else Some(PayCall(d.id, Strings.NumberOf(amountText)))
  }

  /** Repaying the whole balance shown, typed in as it is displayed, settles the debt. */
  lemma PayInFullSettles(d: Debt)
    ensures var call := SubmitPayment(d, Strings.IntToString(d.remainingAmount));
      && call.Some?
      && Ledger.Repaid(d, call.value.amount).status == Paid
      && Ledger.Repaid(d, call.value.amount).remainingAmount == 0
  {
    Strings.NumberOfIntToString(d.remainingAmount);
  }
}
