/**
 * The receipt sheet (`components/Receipt.tsx`): the values it starts from,
 * the net total, the ticket number and the text it shares. How a date is
 * printed (`toLocaleDateString`) is a parameter; totals are printed as plain
 * integers.
 */
module Receipt {
  import opened Wrappers
  import opened Types
  import Strings
  import Ledger

  /** `x || fallback` for an optional text: absent and empty both fall back. */
  function TextOr(x: Option<string>, fallback: string): (r: string)
    ensures x.Some? && x.value != "" ==> r == x.value
    ensures x.None? || x.value == "" ==> r == fallback
  {
    if x.Some? && x.value != "" then x.value else fallback
  }

  /** The customer field starts from the transaction, or "Client Passager". */
  function InitialCustomer(t: Transaction): string
  {
    TextOr(t.customerName, "Client Passager")
  }

  /** The discount field starts from the transaction, or 0. */
  function InitialDiscount(t: Transaction): int
  {
    if t.discount.Some? then t.discount.value else 0
  }

  /** The header note, or the business name. */
  function HeaderNote(u: UserProfile): string
  {
    TextOr(u.receiptConfig.headerNote, u.businessName)
  }

  /** The footer note, or the thanks line. */
  function FooterNote(u: UserProfile): (r: string)
    ensures r != ""
  {
    TextOr(u.receiptConfig.footerNote, ThanksNote)
  }

  /** The amount due: the transaction amount less the discount, with no floor. */
  function FinalTotal(t: Transaction, discount: int): (r: int)
    ensures r + discount == t.amount
    ensures discount > t.amount <==> r < 0
  {
    t.amount - discount
  }

  /** The starting values of a sheet opened on a sale without customer or discount. */
  lemma PlainSaleDefaults(t: Transaction)
    requires t.customerName.None? && t.discount.None?
    ensures InitialCustomer(t) == "Client Passager" && FinalTotal(t, InitialDiscount(t)) == t.amount
  {
  }

  /** A profile fresh from sign-in heads its receipts with the business name and the thanks line. */
  lemma FreshProfileNotes(a: AuthUser)
    ensures HeaderNote(Ledger.NewProfile(a)) == Ledger.NewProfile(a).businessName
    ensures FooterNote(Ledger.NewProfile(a)) == ThanksNote
  {
  }

  /** "#AES-" and at most the first eight characters of the id (`substr(0, 8)`). */
  function TicketNumber(id: string): (r: string)
    ensures |r| == 5 + (if |id| < 8 then |id| else 8)
    ensures r[..5] == "#AES-" && r[5..] <= id
    ensures |id| <= 8 ==> r[5..] == id
  {
    "#AES-" + (if |id| < 8 then id else id[..8])
  }

  /** Two ids that agree on their first eight characters get the same ticket number. */
  lemma TicketNumberPrefix(a: string, b: string)
    requires |a| >= 8 && |b| >= 8 && a[..8] == b[..8]
    ensures TicketNumber(a) == TicketNumber(b)
  {
  }

  const Scroll: char := '\U{1F4DC}'

  /** The five lines of the shared receipt, before trimming. */
  function ShareLines(header: string, date: string, customer: string, total: int, footer: string): (r: seq<string>)
    ensures |r| == 5 && r[4] == footer
  {
    [[Scroll] + " REÇU AESCOMPT - " + header, "Date: " + date, "Client: " + customer,
     "TOTAL : " + Strings.IntToString(total) + " F", footer]
  }

  /** `handleShare`'s text: the lines joined by newlines, then trimmed. */
  function ShareText(header: string, date: string, customer: string, total: int, footer: string): string
  {
    Strings.Trim(Strings.Join(ShareLines(header, date, customer, total, footer), "\n"))
  }

  /**
   * When no value holds a newline and the footer ends in a visible
   * character, the shared text reads back as exactly its five lines:
   * header, date, client, total and footer, in that order.
   */
  lemma ShareTextLines(header: string, date: string, customer: string, total: int, footer: string)
    requires '\n' !in header && '\n' !in date && '\n' !in customer && '\n' !in footer
    requires footer != [] && !Strings.IsWhitespace(footer[|footer| - 1])
    ensures Strings.Split(ShareText(header, date, customer, total, footer), '\n')
      == ShareLines(header, date, customer, total, footer)
  {
    var lines := ShareLines(header, date, customer, total, footer);
    var text := Strings.Join(lines, "\n");
    assert '\n' !in lines[0] by {
      assert forall c :: c in lines[0] ==> c == Scroll || c in " REÇU AESCOMPT - " || c in header;
    }
    assert '\n' !in lines[3] by {
      assert forall c :: c in lines[3] ==> c in "TOTAL : " || c in Strings.IntToString(total) || c in " F";
    }
    assert text[0] == Scroll by {
      JoinHead(lines, "\n");
    }
    assert text[|text| - 1] == footer[|footer| - 1] by {
      JoinLast(lines, "\n");
    }
    Strings.TrimTrimmed(text);
    Strings.SplitJoin(lines, '\n');
  }

  lemma {:induction false} JoinHead(xs: seq<string>, sep: string)
    requires |xs| >= 1 && xs[0] != []
    ensures Strings.Join(xs, sep) != [] && Strings.Join(xs, sep)[0] == xs[0][0]
  {
  }

  lemma {:induction false} JoinLast(xs: seq<string>, sep: string)
    requires |xs| >= 1 && xs[|xs| - 1] != []
    ensures var j := Strings.Join(xs, sep); j != [] && j[|j| - 1] == xs[|xs| - 1][|xs[|xs| - 1]| - 1]
    decreases |xs|
  {
    if |xs| > 1 {
      JoinLast(xs[1..], sep);
    }
  }
}
