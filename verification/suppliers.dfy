/**
 * The suppliers screen (`components/SuppliersModule.tsx`): the search box,
 * the WhatsApp number, and the add form.
 */
module Suppliers {
  import opened Types
  import Arrays
  import Strings

  /** The search rule: name or category, both compared in lower case. */
  predicate Matches(term: string, s: Supplier)
  {
    Strings.Contains(Strings.Lower(s.name), Strings.Lower(term))
    || Strings.Contains(Strings.Lower(s.category), Strings.Lower(term))
  }

  /** The empty search term matches every record. */
  lemma EmptyTermMatches(ss: seq<Supplier>)
    ensures forall s :: s in ss ==> Matches("", s)
  {
    forall s | s in ss ensures Matches("", s) {
      Strings.ContainsEmpty(Strings.Lower(s.name));
    }
  }

  /** The `filtered` list. */
  function Search(ss: seq<Supplier>, term: string): (r: seq<Supplier>)
    ensures Arrays.IsSubsequence(r, ss)
    ensures forall s :: s in r ==> s in ss && Matches(term, s)
    ensures forall s :: s in ss && Matches(term, s) ==> s in r
    ensures term == "" ==> r == ss
  {
    EmptyTermMatches(ss);
    Arrays.Filter(ss, s => Matches(term, s))
  }

  /** A supplier matching on both name and category is listed as often as it is stored, not twice as often. */
  lemma SearchListsOnce(ss: seq<Supplier>, term: string, s: Supplier)
    ensures multiset(Search(ss, term))[s] == if Matches(term, s) then multiset(ss)[s] else 0
  {
    Arrays.FilterMultiplicity(ss, t => Matches(term, t), s);
  }

  /** `openWhatsApp`'s number: exactly the digits of the contact, in order. */
  function ContactNumber(contact: string): (r: string)
    ensures Strings.AllDigits(r)
    ensures Arrays.IsSubsequence(r, contact)
    ensures forall c :: c in contact && Strings.IsDigit(c) ==> c in r
    ensures forall c :: multiset(r)[c] == if Strings.IsDigit(c) then multiset(contact)[c] else 0
    ensures Strings.AllDigits(contact) ==> r == contact
  {
    Strings.Digits(contact)
  }

  const BlankForm: SupplierDraft := SupplierDraft("", "", "", "")

  /** The save button: the form goes to `onAddSupplier` as it is, unchecked, and the form is cleared. */
  function SubmitSupplier(f: SupplierDraft): (r: (SupplierDraft, SupplierDraft))
    ensures r.0 == f && r.1 == BlankForm
  {
    (f, BlankForm)
  }

  /** Nothing is checked: saving an untouched form adds a supplier with every field empty. */
  lemma BlankSupplierAccepted()
    ensures SubmitSupplier(BlankForm).0 == SupplierDraft("", "", "", "")
  {
  }
}
