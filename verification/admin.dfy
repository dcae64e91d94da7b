/**
 * The settings screen (`components/AdminConsole.tsx`): the values its
 * fields start from, the receipt settings it sends back, and the business
 * types it offers. The logo arrives already read as text.
 */
module AdminConsole {
  import opened Wrappers
  import opened Types
  import Receipt

  /** The three fields of the screen: business name, header note, footer note. */
  datatype Notes = Notes(editName: string, header: string, footer: string)

  /** The fields start from the profile, with the same fallbacks the receipt uses. */
  function InitialNotes(u: UserProfile): (r: Notes)
    ensures r.editName == u.businessName
    ensures r.header == Receipt.HeaderNote(u) && r.footer == Receipt.FooterNote(u)
  {
    Notes(u.businessName, Receipt.HeaderNote(u), Receipt.FooterNote(u))
  }

  /** `saveTexts`: the current settings with the two notes replaced and nothing else touched. */
  function SaveTexts(rc: ReceiptConfig, header: string, footer: string): (r: ReceiptConfig)
    ensures r.headerNote == Some(header) && r.footerNote == Some(footer)
    ensures r.showTax == rc.showTax && r.showQR == rc.showQR && r.logo == rc.logo
  {
    rc.(headerNote := Some(header), footerNote := Some(footer))
  }

  /** The logo upload: the current settings with only the logo replaced. */
  function WithLogo(rc: ReceiptConfig, logo: string): (r: ReceiptConfig)
    ensures r.logo == Some(logo)
    ensures r.headerNote == rc.headerNote && r.footerNote == rc.footerNote
    ensures r.showTax == rc.showTax && r.showQR == rc.showQR
  {
    rc.(logo := Some(logo))
  }

  /** Saved notes are what the screen and the receipt show next time (an emptied note falls back again). */
  lemma SavedNotesShown(u: UserProfile, header: string, footer: string)
    ensures var v := u.(receiptConfig := SaveTexts(u.receiptConfig, header, footer));
      && InitialNotes(v).header == (if header != "" then header else u.businessName)
      && InitialNotes(v).footer == (if footer != "" then footer else ThanksNote)
  {
  }

  /** Saving the notes the screen opened with, unedited, changes nothing a receipt shows. */
  lemma SaveUneditedKeepsReceipt(u: UserProfile)
    ensures var n := InitialNotes(u);
      var v := u.(receiptConfig := SaveTexts(u.receiptConfig, n.header, n.footer));
      Receipt.HeaderNote(v) == Receipt.HeaderNote(u) && Receipt.FooterNote(v) == Receipt.FooterNote(u)
  {
  }

  /** A logo upload does not disturb the notes. */
  lemma LogoKeepsNotes(u: UserProfile, logo: string)
    ensures var v := u.(receiptConfig := WithLogo(u.receiptConfig, logo));
      InitialNotes(v) == InitialNotes(u)
  {
  }

  /** The governance choices, in screen order. */
  const BusinessTypeChoices: seq<BusinessType> := [Boutique, Restaurant, Hotel, Supermarket, Warehouse, General]

  /** Every business type is offered, each once. */
  lemma ChoicesComplete()
    ensures forall b: BusinessType :: b in BusinessTypeChoices
    ensures forall i, j :: 0 <= i < j < |BusinessTypeChoices| ==> BusinessTypeChoices[i] != BusinessTypeChoices[j]
  {
    forall b: BusinessType ensures b in BusinessTypeChoices {
      match b
      case Boutique => assert BusinessTypeChoices[0] == b;
      case Restaurant => assert BusinessTypeChoices[1] == b;
      case Hotel => assert BusinessTypeChoices[2] == b;
      case Supermarket => assert BusinessTypeChoices[3] == b;
      case Warehouse => assert BusinessTypeChoices[4] == b;
      case General => assert BusinessTypeChoices[5] == b;
    }
  }
}
