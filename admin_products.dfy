/** The catalogue administration page: the product list with its search and category filter,
    the publish toggle and delete, and the create/edit form with its image list and the
    record it saves. */
module AdminCatalog {
  import opened Wrappers
  import opened Text
  import opened Types
  import Seqs
  import Helpers

  // ----- The slug the form saves ---------------------------------------------------------

  /** A character the admin slug keeps: `[a-z0-9]`. */
  predicate IsSlugAlnum(c: char) { IsLowerAlpha(c) || IsDigit(c) }

  /** A character of `[^a-z0-9]`, which the admin slug turns into dashes. */
  predicate IsAdminSeparator(c: char) { !IsSlugAlnum(c) }

  /** `replace(/(^-|-$)/g, '')`: one dash is removed from the front and one from the back. */
  function StripEdgeDash(s: string): (r: string)
    ensures |s| > 0 && s[0] == '-' ==> |r| <= |s| - 1
    ensures var a := if |s| > 0 && s[0] == '-' then 1 else 0;
      var b := if |s| > a && s[|s| - 1] == '-' then |s| - 1 else |s|;
      r == s[a..b]
  {
    var a := if |s| > 0 && s[0] == '-' then 1 else 0;
    var front := s[a..];
    var b := if |front| > 0 && front[|front| - 1] == '-' then |s| - 1 else |s|;
    assert front[..|front| - (|s| - b)] == s[a..b];
    front[..|front| - (|s| - b)]
  }

  /** Removing one edge dash from a dash-collapsed string of slug characters leaves a slug. */
  lemma StripEdgeKeepsSlug(s: string)
    requires forall i :: 0 <= i < |s| ==> Helpers.IsSlugChar(s[i])
    requires Helpers.NoDoubleDash(s)
    ensures Helpers.IsSlug(StripEdgeDash(s))
  {
    var a := if |s| > 0 && s[0] == '-' then 1 else 0;
    var front := s[a..];
    var b := if |front| > 0 && front[|front| - 1] == '-' then |s| - 1 else |s|;
    var r := StripEdgeDash(s);
    assert r == s[a..b];
    Helpers.SliceSlugShape(s, a, b);
    if r != [] {
      assert r[0] == s[a] && r[|r| - 1] == s[b - 1];
      if a == 1 {
        assert s[0] == '-' && s[1] != '-';
      }
      if b == |s| - 1 {
        assert s[|s| - 1] == '-' && s[|s| - 2] != '-';
      }
    }
  }

  /** The slug `ProductModal.handleSubmit` saves: the title lower-cased, each run of
      characters outside `[a-z0-9]` turned into one dash, then one dash removed from each
      end. It is always a well-formed slug. */
  function AdminSlug(title: string): (r: string)
    ensures Helpers.IsSlug(r)
  {
    var dashed := Helpers.CollapseRuns(ToLower(title), IsAdminSeparator);
    assert forall i :: 0 <= i < |dashed| ==> Helpers.IsSlugChar(dashed[i]);
    StripEdgeKeepsSlug(dashed);
    StripEdgeDash(dashed)
  }

  /** A slug is its own admin slug. */
  lemma AdminSlugFixed(s: string)
    requires Helpers.IsSlug(s)
    ensures AdminSlug(s) == s
  {
    Helpers.ToLowerFixed(s);
    Helpers.CollapseRunsFixed(s, IsAdminSeparator);
  }

  /** Two words of `[a-z0-9]` separated by a run of other characters that lower-casing
      leaves alone are joined by a single dash. */
  lemma AdminSlugJoinsWords(w1: string, sp: string, w2: string)
    requires Helpers.IsSlugWord(w1) && Helpers.IsSlugWord(w2)
    requires sp != [] && forall i :: 0 <= i < |sp| ==> !IsUpperAlpha(sp[i]) && !IsSlugAlnum(sp[i])
    ensures AdminSlug(w1 + sp + w2) == w1 + "-" + w2
  {
    var t := w1 + sp + w2;
    assert forall i :: 0 <= i < |t| ==> t[i] in w1 || t[i] in sp || t[i] in w2;
    Helpers.ToLowerFixed(t);
    Helpers.CollapseJoinsWords(w1, sp, w2, IsAdminSeparator);
    var dashed := w1 + "-" + w2;
    assert dashed[0] == w1[0] && dashed[|dashed| - 1] == w2[|w2| - 1];
    assert StripEdgeDash(dashed) == dashed[0..|dashed|];
  }

  /** Saving a product twice under its own slug gives the same slug. */
  lemma AdminSlugIdempotent(title: string)
    ensures AdminSlug(AdminSlug(title)) == AdminSlug(title)
  {
    AdminSlugFixed(AdminSlug(title));
  }

  // ----- The list --------------------------------------------------------------------------

  /** The title search (case-insensitive `includes`) and the category filter (an empty
      category matches all). */
  function Matches(p: Product, searchTerm: string, category: string): (ok: bool)
    ensures category != "" && p.category_id != category ==> !ok
    ensures searchTerm == "" && category == "" ==> ok
  {
    Contains(ToLower(p.title), ToLower(searchTerm)) && (category == "" || p.category_id == category)
  }

  function MatchesFilter(searchTerm: string, category: string): Product -> bool {
    p => Matches(p, searchTerm, category)
  }

  /** `filteredProducts`: the products that match, in list order. */
  function FilteredProducts(products: seq<Product>, searchTerm: string, category: string)
    : (r: seq<Product>)
    ensures forall p :: p in r <==> p in products && Matches(p, searchTerm, category)
    ensures |r| <= |products|
  {
    Seqs.Filter(products, MatchesFilter(searchTerm, category))
  }

  /** With no search term and no category, the whole list is shown. */
  lemma NoFilterShowsAll(products: seq<Product>)
    ensures FilteredProducts(products, "", "") == products
  {
    forall p | p in products ensures Matches(p, "", "") {
      ContainsEmpty(ToLower(p.title));
    }
    Seqs.FilterAll(products, MatchesFilter("", ""));
  }

  /** A product is shown exactly when its lower-cased title has the lower-cased term at some
      position and its category is the selected one, if any. */
  lemma ShownIffTitleHasTerm(products: seq<Product>, searchTerm: string, category: string,
                             p: Product)
    requires p in products
    ensures p in FilteredProducts(products, searchTerm, category) <==>
      (exists i: nat :: OccursAt(ToLower(p.title), ToLower(searchTerm), i)) &&
      (category == "" || p.category_id == category)
  {
    ContainsIffOccurs(ToLower(p.title), ToLower(searchTerm));
  }

  /** The list with the publish flag of the products with id `id` flipped. */
  function Toggled(products: seq<Product>, id: string): (r: seq<Product>)
    ensures |r| == |products|
    ensures forall i :: 0 <= i < |r| && products[i].id == id ==>
      r[i] == products[i].(is_active := !products[i].is_active)
    ensures forall i :: 0 <= i < |r| && products[i].id != id ==> r[i] == products[i]
  {
    seq(|products|, i requires 0 <= i < |products| =>
      if products[i].id == id then products[i].(is_active := !products[i].is_active)
      else products[i])
  }

  /** Toggling the same product twice restores the list. */
  lemma ToggleTwiceRestores(products: seq<Product>, id: string)
    ensures Toggled(Toggled(products, id), id) == products
  {
  }

  predicate HasOtherId(id: string, p: Product) { p.id != id }

  /** The list without the products with id `id`. */
  function WithoutProduct(products: seq<Product>, id: string): (r: seq<Product>)
    ensures forall p :: p in r <==> p in products && p.id != id
  {
    Seqs.Filter(products, p => HasOtherId(id, p))
  }

  /** The product list held by the page. */
  class ProductsPage {
    var products: seq<Product>

    constructor(loaded: seq<Product>)
      ensures products == loaded
    {
      products := loaded;
    }

    /** `toggleProductStatus(product)`: after the store accepts the change, the product with
        that id is flipped in the list and nothing else changes; on a store error the list is
        left as it was. */
    method ToggleProductStatus(product: Product, storeFails: bool)
      modifies this
      ensures storeFails ==> products == old(products)
      ensures !storeFails ==> products == Toggled(old(products), product.id)
    {
      if storeFails {
        return;
      }
      products := Toggled(products, product.id);
    }

    /** `handleDeleteProduct(productId)`: once confirmed and accepted by the store, the
        product with that id leaves the list and every other product stays. */
    method HandleDeleteProduct(productId: string, confirmed: bool, storeFails: bool)
      modifies this
      ensures !confirmed || storeFails ==> products == old(products)
      ensures confirmed && !storeFails ==> products == WithoutProduct(old(products), productId)
    {
      if !confirmed {
        return;
      }
      if storeFails {
        return;
      }
      products := WithoutProduct(products, productId);
    }
  }

  // ----- The form ----------------------------------------------------------------------------

  /** The create/edit form's inputs; price and inventory are the typed text. */
  datatype ProductForm = ProductForm(
    title: string,
    description: string,
    category_id: string,
    price: string,
    unit: string,
    inventory: string,
    images: seq<string>)

  /** The form for a product being edited, or the empty form for a new one. `priceText` and
      `inventoryText` are the numbers as `toString` writes them. */
  function FormFor(product: Option<Product>, priceText: string, inventoryText: string)
    : (f: ProductForm)
    ensures |f.images| >= 1
    ensures product.None? ==> f == ProductForm("", "", "", "", "", "", [""])
    ensures product.Some? ==> var p := product.value;
      && f.title == p.title
      && f.description == p.description.GetOr("")
      && f.category_id == p.category_id
      && f.price == priceText
      && f.unit == p.unit
      && f.inventory == inventoryText
      && f.images == (if |p.images| > 0 then p.images else [""])
  {
    if product.None? then ProductForm("", "", "", "", "", "", [""])
    else
      var p := product.value;
      ProductForm(p.title, p.description.GetOr(""), p.category_id, priceText, p.unit,
                  inventoryText, if |p.images| > 0 then p.images else [""])
  }

  predicate IsFilledImage(img: string) { Trim(img) != "" }

  /** The images saved: the non-blank entries, in order. */
  function SavedImages(images: seq<string>): (r: seq<string>)
    ensures forall img :: img in r <==> img in images && !IsBlank(img)
    ensures |r| <= |images|
  {
    forall img | img in images ensures IsFilledImage(img) <==> !IsBlank(img) {
      BlankIffTrimEmpty(img);
    }
    Seqs.Filter(images, IsFilledImage)
  }

  /** A list without blank entries is saved as it is. */
  lemma FilledImagesSavedUnchanged(images: seq<string>)
    requires forall i :: 0 <= i < |images| ==> !IsBlank(images[i])
    ensures SavedImages(images) == images
  {
    forall img | img in images ensures IsFilledImage(img) {
      BlankIffTrimEmpty(img);
    }
    Seqs.FilterAll(images, IsFilledImage);
  }

  /** The record the form saves. The parsed price and inventory are given, since the model
      does not parse numbers. */
  datatype ProductRecord = ProductRecord(
    title: string,
    slug: string,
    description: Option<string>,
    category_id: string,
    price: int,
    unit: string,
    inventory: int,
    images: seq<string>,
    is_active: bool)

  /** The record built from the form: slug from the title, an empty description stored as
      null, blank images dropped, and always published. */
  function ProductData(form: ProductForm, parsedPrice: int, parsedInventory: int)
    : (r: ProductRecord)
    ensures r.is_active
    ensures Helpers.IsSlug(r.slug) && r.slug == AdminSlug(form.title)
    ensures r.description.None? <==> form.description == ""
    ensures r.description.Some? ==> r.description.value == form.description
    ensures forall img :: img in r.images <==> img in form.images && !IsBlank(img)
    ensures r.title == form.title && r.category_id == form.category_id && r.unit == form.unit
  {
    ProductRecord(form.title, AdminSlug(form.title),
                  if form.description == "" then None else Some(form.description),
                  form.category_id, parsedPrice, form.unit, parsedInventory,
                  SavedImages(form.images), true)
  }

  /** The form's state; its image list never becomes empty. */
  class ProductModal {
    var formData: ProductForm

    predicate Valid()
      reads this
    {
      |formData.images| >= 1
    }

    constructor(product: Option<Product>, priceText: string, inventoryText: string)
      ensures formData == FormFor(product, priceText, inventoryText)
      ensures Valid()
    {
      formData := FormFor(product, priceText, inventoryText);
    }

    /** Typing into the image input at `index`. */
    method EditImage(index: nat, value: string)
      requires Valid() && index < |formData.images|
      modifies this
      ensures formData == old(formData).(images := old(formData).images[index := value])
      ensures Valid()
    {
      var newImages := formData.images;
      newImages := newImages[index := value];
      formData := formData.(images := newImages);
    }

    /** The remove button, shown only while there is more than one image. */
    method RemoveImage(index: nat)
      requires Valid() && |formData.images| > 1 && index < |formData.images|
      modifies this
      ensures formData.images == old(formData).images[..index] + old(formData).images[index + 1..]
      ensures formData == old(formData).(images := formData.images)
      ensures Valid()
    {
      var newImages := formData.images[..index] + formData.images[index + 1..];
      formData := formData.(images := newImages);
    }

    /** "Add another image": one empty entry at the end. */
    method AddImage()
      requires Valid()
      modifies this
      ensures formData == old(formData).(images := old(formData).images + [""])
      ensures Valid()
    {
      formData := formData.(images := formData.images + [""]);
    }
  }
}
