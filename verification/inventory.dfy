/**
 * The stock screen (`components/Inventory.tsx`): the name search, the
 * low-stock badge, and the add-product form with its photo analysis and
 * QR-coded id. The random part of the id, the QR image (None when
 * generation fails) and the analysis result are parameters.
 */
module Inventory {
  import opened Wrappers
  import opened Types
  import Arrays
  import Strings
  import Dashboard

  /** The name search, compared in lower case. */
  predicate NameMatches(term: string, p: Product)
  {
    Strings.Contains(Strings.Lower(p.name), Strings.Lower(term))
  }

  lemma EmptyTermMatches(ps: seq<Product>)
    ensures forall p :: p in ps ==> NameMatches("", p)
  {
    forall p | p in ps ensures NameMatches("", p) {
      Strings.ContainsEmpty(Strings.Lower(p.name));
    }
  }

  /** The products listed for a search term, in stock order. */
  function Search(ps: seq<Product>, term: string): (r: seq<Product>)
    ensures Arrays.IsSubsequence(r, ps)
    ensures forall p :: p in r ==> p in ps && NameMatches(term, p)
    ensures forall p :: p in ps && NameMatches(term, p) ==> p in r
    ensures term == "" ==> r == ps
  {
    EmptyTermMatches(ps);
    Arrays.Filter(ps, p => NameMatches(term, p))
  }

  /** The "Stock Critique" badge: shown at or below the minimum, not only under it. */
  predicate LowStock(p: Product)
  {
    p.stock <= p.minStock
  }

  // ------------------------------------------------------------ the form

  /** The add-product form; every field is the text of its input. */
  datatype ProductForm = ProductForm(
    name: string, price: string, purchasePrice: string, stock: string,
    minStock: string, category: string, unit: string)

  const DefaultForm: ProductForm := ProductForm("", "", "", "", "5", "Général", "pcs")

  /** What the photo analysis may return; an empty string is a missing name or category. */
  datatype LensResult = LensResult(name: string, category: string, suggestedPrice: Option<int>)

  /** The id and sku of a new product: "AES-" and a random token. */
  function ProductId(token: string): (r: string)
    ensures |r| == 4 + |token| && r[..4] == "AES-" && r[4..] == token
  {
    "AES-" + token
  }

  /** The object handed to `onAddProduct`: numbers read with `Number`, one string as id and sku. */
  function BuildProduct(f: ProductForm, id: string, qr: string, image: Option<string>): (p: Product)
    ensures p.id == id && p.sku == id && p.qrCode == Some(qr) && p.image == image
    ensures p.name == f.name && p.category == f.category && p.unit == f.unit
    ensures p.price == Strings.NumberOf(f.price) && p.purchasePrice == Strings.NumberOf(f.purchasePrice)
    ensures p.stock == Strings.NumberOf(f.stock) && p.minStock == Strings.NumberOf(f.minStock)
  {
    Product(id, f.name, Strings.NumberOf(f.price), Strings.NumberOf(f.purchasePrice),
            Strings.NumberOf(f.stock), Strings.NumberOf(f.minStock), f.unit, f.category, id, image, Some(qr))
  }

  /** `{...prev, name: r.name || prev.name, ...}`: each field is replaced only by a present result. */
  function MergeLens(f: ProductForm, r: LensResult): (g: ProductForm)
    ensures g.name == if r.name != "" then r.name else f.name
    ensures g.category == if r.category != "" then r.category else f.category
    ensures g.price == if r.suggestedPrice.Some? then Strings.IntToString(r.suggestedPrice.value) else f.price
    ensures g.(name := f.name, category := f.category, price := f.price) == f
  {
    f.(name := if r.name != "" then r.name else f.name,
       category := if r.category != "" then r.category else f.category,
       price := if r.suggestedPrice.Some? then Strings.IntToString(r.suggestedPrice.value) else f.price)
  }

  /**
   * A product filled in from the default form keeps its defaults (minimum 5,
   * 'Général', 'pcs'); its blank stock reads as 0, so it is flagged low at once.
   */
  lemma DefaultsReachProduct(name: string, price: string, id: string, qr: string)
    ensures var p := BuildProduct(DefaultForm.(name := name, price := price), id, qr, None);
      p.minStock == 5 && p.category == "Général" && p.unit == "pcs" && p.stock == 0 && LowStock(p)
  {
    assert Strings.AllDigits("5");
    assert "5"[..0] == [];
  }

  /** A price suggested by the analysis is the price the product is saved with. */
  lemma SuggestedPriceSaved(f: ProductForm, r: LensResult, id: string, qr: string, image: Option<string>)
    requires r.suggestedPrice.Some?
    ensures BuildProduct(MergeLens(f, r), id, qr, image).price == r.suggestedPrice.value
  {
    Strings.NumberOfIntToString(r.suggestedPrice.value);
  }

  /** Scanning a new product's QR payload on the home screen finds it, when no earlier product has that code. */
  lemma NewProductScannable(ps: seq<Product>, f: ProductForm, token: string, qr: string, image: Option<string>, q: Dashboard.QuickForm)
    requires forall i :: 0 <= i < |ps| ==> !Dashboard.HasCode(ProductId(token), ps[i])
    ensures var p := BuildProduct(f, ProductId(token), qr, image);
      Dashboard.Scan(ps + [p], ProductId(token), q) == Dashboard.QuickForm(Strings.IntToString(p.price), p.name, true)
  {
    var p := BuildProduct(f, ProductId(token), qr, image);
    var all := ps + [p];
    assert all[|ps|] == p && Dashboard.HasCode(ProductId(token), p);
    assert forall j :: 0 <= j < |ps| ==> all[j] == ps[j];
  }

  /** The add-product dialog: its form, the photo taken, and whether it is open. */
  class ProductEditor {
    var form: ProductForm
    var capturedImage: Option<string>
    var showAddModal: bool

    constructor()
      ensures form == DefaultForm && capturedImage.None? && !showAddModal
    {
      form := DefaultForm;
      capturedImage := None;
      showAddModal := false;
    }

    /**
     * `handleLensAnalysis`: without a photo nothing happens; a failed
     * analysis (None) leaves the form as it is; a result is merged in.
     */
    method ApplyLens(result: Option<LensResult>)
      modifies this
      ensures capturedImage == old(capturedImage) && showAddModal == old(showAddModal)
      ensures form == if old(capturedImage).Some? && result.Some? then MergeLens(old(form), result.value) else old(form)
    {
      if capturedImage.None? {
        return;
      }
      if result.Some? {
        form := MergeLens(form, result.value);
      }
    }

    /**
     * `generateAndAdd`: refused without a name or a price; when the QR code
     * cannot be made nothing is added and the dialog stays as it was;
     * otherwise the product is handed over and the dialog is reset and closed.
     */
    method GenerateAndAdd(token: string, qr: Option<string>) returns (added: Option<Product>)
      modifies this
      ensures old(form).name == "" || old(form).price == "" || qr.None? ==>
        added.None? && form == old(form) && capturedImage == old(capturedImage) && showAddModal == old(showAddModal)
      ensures old(form).name != "" && old(form).price != "" && qr.Some? ==>
        && added == Some(BuildProduct(old(form), ProductId(token), qr.value, old(capturedImage)))
        && form == DefaultForm && capturedImage.None? && !showAddModal
    {
      if form.name == "" || form.price == "" {
        return None;
      }
      var id := ProductId(token);
      if qr.None? {
        return None;
      }
      added := Some(BuildProduct(form, id, qr.value, capturedImage));
      form := DefaultForm;
      capturedImage := None;
      showAddModal := false;
    }
  }
}
