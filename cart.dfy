/** The shopping cart hook: a list of cart lines keyed by product id, with merge-on-add,
    removal, quantity updates, clearing and the queries the pages use. */
module CartHook {
  import opened Types
  import opened Wrappers
  import Seqs
  import Helpers

  /** What `addItem` is given: a cart line without its quantity. */
  datatype CartProduct = CartProduct(
    product_id: string,
    title: string,
    price: int,
    unit: string,
    image_url: Option<string>)

  /** No two lines share a product id. */
  predicate UniqueIds(items: seq<CartItem>) {
    forall i, j :: 0 <= i < j < |items| ==> items[i].product_id != items[j].product_id
  }

  /** Some line carries the product id (`items.some(...)`). */
  predicate HasId(items: seq<CartItem>, id: string) {
    exists i :: 0 <= i < |items| && items[i].product_id == id
  }

  /** A product id found in a cart whose first line has another id is found in the rest. */
  lemma HasIdTail(items: seq<CartItem>, id: string)
    requires items != [] && items[0].product_id != id
    ensures HasId(items, id) <==> HasId(items[1..], id)
  {
    if HasId(items, id) {
      var i :| 0 <= i < |items| && items[i].product_id == id;
      assert items[1..][i - 1] == items[i];
    }
    if HasId(items[1..], id) {
      var i :| 0 <= i < |items[1..]| && items[1..][i].product_id == id;
      assert items[i + 1] == items[1..][i];
    }
  }

  /** `items.find(...)`: the first line with the product id, if any. */
  function FindItem(items: seq<CartItem>, id: string): (r: Option<CartItem>)
    ensures r.Some? <==> HasId(items, id)
    ensures r.Some? ==> r.value.product_id == id && r.value in items
  {
    if items == [] then None
    else if items[0].product_id == id then Some(items[0])
    else
      HasIdTail(items, id);
      FindItem(items[1..], id)
  }

  /** The line found is the first one with the product id. */
  lemma {:induction false} FindItemIsFirst(items: seq<CartItem>, id: string, k: nat)
    requires k < |items| && items[k].product_id == id
    requires forall j :: 0 <= j < k ==> items[j].product_id != id
    ensures FindItem(items, id) == Some(items[k])
  {
    if k > 0 {
      assert items[1..][k - 1] == items[k];
      FindItemIsFirst(items[1..], id, k - 1);
    }
  }

  /** The lines with the product id given the quantity `q`; everything else as it was. */
  function WithQuantity(items: seq<CartItem>, id: string, q: int): (r: seq<CartItem>)
    ensures |r| == |items|
    ensures forall i :: 0 <= i < |items| ==>
      r[i] == (if items[i].product_id == id then items[i].(quantity := q) else items[i])
  {
    if items == [] then []
    else
      [if items[0].product_id == id then items[0].(quantity := q) else items[0]] +
      WithQuantity(items[1..], id, q)
  }

  /** The lines with the product id given `delta` more; everything else as it was. */
  function WithIncrement(items: seq<CartItem>, id: string, delta: int): (r: seq<CartItem>)
    ensures |r| == |items|
    ensures forall i :: 0 <= i < |items| ==>
      r[i] == (if items[i].product_id == id then items[i].(quantity := items[i].quantity + delta)
               else items[i])
  {
    if items == [] then []
    else
      [if items[0].product_id == id then items[0].(quantity := items[0].quantity + delta)
       else items[0]] +
      WithIncrement(items[1..], id, delta)
  }

  /** The state `addItem` produces: an existing line is merged into, a new product appended. */
  function WithAdded(items: seq<CartItem>, product: CartProduct, quantity: int): (r: seq<CartItem>)
    ensures HasId(items, product.product_id) ==> |r| == |items|
    ensures !HasId(items, product.product_id) ==>
      r == items + [CartItem(product.product_id, product.title, product.price, product.unit,
                             quantity, product.image_url)]
  {
    if FindItem(items, product.product_id).Some? then
      WithIncrement(items, product.product_id, quantity)
    else
      items + [CartItem(product.product_id, product.title, product.price, product.unit,
                        quantity, product.image_url)]
  }

  /** The test `removeItem` filters with: the line is of another product. */
  function OtherThan(id: string): CartItem -> bool {
    (item: CartItem) => item.product_id != id
  }

  /** The state `removeItem` produces: the lines of other products, in their order. */
  function Without(items: seq<CartItem>, id: string): (r: seq<CartItem>)
    ensures forall x :: x in r <==> x in items && x.product_id != id
    ensures !HasId(r, id)
  {
    var r := Seqs.Filter(items, OtherThan(id));
    assert forall i :: 0 <= i < |r| ==> r[i] in r;
    r
  }

  /** The state `updateQuantity` produces. */
  function Updated(items: seq<CartItem>, id: string, quantity: int): (r: seq<CartItem>)
    ensures quantity <= 0 ==> r == Without(items, id)
    ensures quantity > 0 ==> r == WithQuantity(items, id, quantity)
  {
    if quantity <= 0 then Without(items, id) else WithQuantity(items, id, quantity)
  }

  /** `getItemCount`: the sum of the quantities. */
  function ItemCount(items: seq<CartItem>): (n: int)
    ensures (forall i :: 0 <= i < |items| ==> items[i].quantity >= 0) ==> n >= 0
    ensures items == [] ==> n == 0
  {
    if items == [] then 0 else items[0].quantity + ItemCount(items[1..])
  }

  // ----- Properties --------------------------------------------------------------------

  /** Adding a product already in the cart raises its quantity by the amount added, keeps
      every other field of that line, and leaves the other lines and the order as they were. */
  lemma AddExistingMerges(items: seq<CartItem>, product: CartProduct, quantity: int, k: nat)
    requires k < |items| && items[k].product_id == product.product_id
    ensures var r := WithAdded(items, product, quantity);
      && |r| == |items|
      && r[k] == items[k].(quantity := items[k].quantity + quantity)
      && forall i :: 0 <= i < |items| && items[i].product_id != product.product_id ==> r[i] == items[i]
  {
    assert HasId(items, product.product_id);
  }

  /** A line is the head of a cart followed by the rest; uniqueness splits accordingly. */
  lemma UniqueCons(items: seq<CartItem>)
    requires items != []
    ensures UniqueIds(items) <==>
      UniqueIds(items[1..]) && !HasId(items[1..], items[0].product_id)
  {
    var rest := items[1..];
    if UniqueIds(items) {
      forall i, j | 0 <= i < j < |rest| ensures rest[i].product_id != rest[j].product_id {
        assert rest[i] == items[i + 1] && rest[j] == items[j + 1];
      }
    }
    if UniqueIds(rest) && !HasId(rest, items[0].product_id) {
      forall i, j | 0 <= i < j < |items| ensures items[i].product_id != items[j].product_id {
        assert items[j] == rest[j - 1];
        if i > 0 {
          assert items[i] == rest[i - 1];
        }
      }
    }
  }

  /** Adding keeps product ids unique. */
  lemma AddKeepsUnique(items: seq<CartItem>, product: CartProduct, quantity: int)
    requires UniqueIds(items)
    ensures UniqueIds(WithAdded(items, product, quantity))
  {
    var r := WithAdded(items, product, quantity);
    if HasId(items, product.product_id) {
      assert forall i :: 0 <= i < |r| ==> r[i].product_id == items[i].product_id;
    } else {
      forall i, j | 0 <= i < j < |r| ensures r[i].product_id != r[j].product_id {
        if j == |items| {
          assert r[i] == items[i];
        } else {
          assert r[i] == items[i] && r[j] == items[j];
        }
      }
    }
  }

  /** Every line of `a` being a line of `b`, a product id in `a` is one in `b`. */
  lemma HasIdSubset(a: seq<CartItem>, b: seq<CartItem>, id: string)
    requires forall x :: x in a ==> x in b
    ensures HasId(a, id) ==> HasId(b, id)
  {
    if HasId(a, id) {
      var i :| 0 <= i < |a| && a[i].product_id == id;
      assert a[i] in b;
    }
  }

  /** Filtering a cart with unique ids keeps them unique. */
  lemma {:induction false} FilterKeepsUnique(items: seq<CartItem>, p: CartItem -> bool)
    requires UniqueIds(items)
    ensures UniqueIds(Seqs.Filter(items, p))
  {
    if items != [] {
      UniqueCons(items);
      FilterKeepsUnique(items[1..], p);
      var tail := Seqs.Filter(items[1..], p);
      if p(items[0]) {
        HasIdSubset(tail, items[1..], items[0].product_id);
        var r := [items[0]] + tail;
        assert r[1..] == tail;
        UniqueCons(r);
      }
    }
  }

  /** Removing keeps product ids unique. */
  lemma RemoveKeepsUnique(items: seq<CartItem>, id: string)
    requires UniqueIds(items)
    ensures UniqueIds(Without(items, id))
  {
    FilterKeepsUnique(items, OtherThan(id));
  }

  /** Updating a quantity keeps product ids unique. */
  lemma UpdateKeepsUnique(items: seq<CartItem>, id: string, quantity: int)
    requires UniqueIds(items)
    ensures UniqueIds(Updated(items, id, quantity))
  {
    if quantity <= 0 {
      RemoveKeepsUnique(items, id);
    } else {
      var r := WithQuantity(items, id, quantity);
      assert forall i :: 0 <= i < |r| ==> r[i].product_id == items[i].product_id;
    }
  }

  /** Removing a product that is not in the cart changes nothing. */
  lemma RemoveAbsentIsIdentity(items: seq<CartItem>, id: string)
    requires !HasId(items, id)
    ensures Without(items, id) == items
  {
    Seqs.FilterAll(items, OtherThan(id));
  }

  /** In a cart with unique ids, no line before or after the `k`-th carries its product id. */
  lemma OnlyLineWithId(items: seq<CartItem>, k: nat)
    requires UniqueIds(items) && k < |items|
    ensures !HasId(items[..k], items[k].product_id)
    ensures !HasId(items[k + 1..], items[k].product_id)
  {
  }

  /** Filtering out a line that fails the test leaves the filtered rest. */
  lemma FilterSkipsHead(x: CartItem, rest: seq<CartItem>, p: CartItem -> bool)
    requires !p(x)
    ensures Seqs.Filter([x] + rest, p) == Seqs.Filter(rest, p)
  {
    assert ([x] + rest)[1..] == rest;
  }

  /** Removing a product whose one line sits between two parts without it leaves the two
      parts joined. */
  lemma RemoveBetween(before: seq<CartItem>, x: CartItem, after: seq<CartItem>)
    requires !HasId(before, x.product_id) && !HasId(after, x.product_id)
    ensures Without(before + [x] + after, x.product_id) == before + after
  {
    var p := OtherThan(x.product_id);
    RemoveAbsentIsIdentity(before, x.product_id);
    RemoveAbsentIsIdentity(after, x.product_id);
    FilterSkipsHead(x, after, p);
    assert before + [x] + after == before + ([x] + after);
    Seqs.FilterConcat(before, [x] + after, p);
  }

  /** Removing a product that is in a cart with unique ids takes out exactly its one line and
      keeps the lines before and after it, in order. */
  lemma RemovePresent(items: seq<CartItem>, k: nat)
    requires UniqueIds(items) && k < |items|
    ensures Without(items, items[k].product_id) == items[..k] + items[k + 1..]
  {
    OnlyLineWithId(items, k);
    assert items == items[..k] + [items[k]] + items[k + 1..];
    RemoveBetween(items[..k], items[k], items[k + 1..]);
  }

  /** The count of two carts laid end to end is the sum of their counts. */
  lemma {:induction false} CountConcat(a: seq<CartItem>, b: seq<CartItem>)
    ensures ItemCount(a + b) == ItemCount(a) + ItemCount(b)
  {
    if a == [] {
      assert a + b == b;
    } else {
      assert (a + b)[1..] == a[1..] + b;
      CountConcat(a[1..], b);
    }
  }

  /** Setting the quantity of the one line with a product id changes the count by the
      difference of the quantities. */
  lemma {:induction false} CountAfterSet(items: seq<CartItem>, k: nat, q: int)
    requires UniqueIds(items) && k < |items|
    ensures ItemCount(WithQuantity(items, items[k].product_id, q)) ==
      ItemCount(items) - items[k].quantity + q
  {
    var id := items[k].product_id;
    var r := WithQuantity(items, id, q);
    UniqueCons(items);
    assert r[1..] == WithQuantity(items[1..], id, q);
    if k == 0 {
      assert WithQuantity(items[1..], id, q) == items[1..] by {
        forall i | 0 <= i < |items[1..]| ensures items[1..][i].product_id != id {
        }
      }
    } else {
      assert items[1..][k - 1] == items[k];
      assert items[0].product_id != id by {
        assert items[0].product_id != items[k].product_id;
      }
      CountAfterSet(items[1..], k - 1, q);
    }
  }

  /** Setting the one line with a product id back to its own quantity undoes any earlier
      setting of it. */
  lemma SetBackRestores(items: seq<CartItem>, k: nat, q: int)
    requires UniqueIds(items) && k < |items|
    ensures var id := items[k].product_id;
      WithQuantity(WithQuantity(items, id, q), id, items[k].quantity) == items
  {
    var id := items[k].product_id;
    var down := WithQuantity(WithQuantity(items, id, q), id, items[k].quantity);
    forall i | 0 <= i < |items| ensures down[i] == items[i] {
      if items[i].product_id == id {
        assert i == k;
      }
    }
  }

  /** Raising a line's quantity by one and lowering it back restores the cart, and the
      count goes up by one on the way (the cart page's + and - buttons). */
  lemma IncrementThenDecrement(items: seq<CartItem>, k: nat)
    requires UniqueIds(items) && k < |items| && items[k].quantity >= 1
    ensures var id := items[k].product_id;
      var up := Updated(items, id, items[k].quantity + 1);
      && ItemCount(up) == ItemCount(items) + 1
      && Updated(up, id, items[k].quantity) == items
  {
    CountAfterSet(items, k, items[k].quantity + 1);
    SetBackRestores(items, k, items[k].quantity + 1);
  }

  /** `hasItem` and `getItem` agree: a product is in the cart exactly when a line is found. */
  lemma HasItemIffGetItem(items: seq<CartItem>, id: string)
    ensures HasId(items, id) <==> FindItem(items, id).Some?
  {
  }

  // ----- The hook's state ----------------------------------------------------------------

  /** The hook's `items` state and the functions it returns. */
  class Cart {
    var items: seq<CartItem>

    /** Product ids stay unique across every operation. */
    predicate Valid()
      reads this
    {
      UniqueIds(items)
    }

    /** A new cart is empty. */
    constructor()
      ensures items == [] && Valid()
    {
      items := [];
    }

    /** `addItem(product, quantity)`. */
    method AddItem(product: CartProduct, quantity: int)
      requires Valid()
      modifies this
      ensures items == WithAdded(old(items), product, quantity)
      ensures Valid()
    {
      AddKeepsUnique(items, product, quantity);
      items := WithAdded(items, product, quantity);
    }

    /** `removeItem(productId)`. */
    method RemoveItem(productId: string)
      requires Valid()
      modifies this
      ensures items == Without(old(items), productId)
      ensures Valid()
    {
      RemoveKeepsUnique(items, productId);
      items := Without(items, productId);
    }

    /** `updateQuantity(productId, quantity)`: a quantity of 0 or less removes the line. */
    method UpdateQuantity(productId: string, quantity: int)
      requires Valid()
      modifies this
      ensures items == Updated(old(items), productId, quantity)
      ensures quantity <= 0 ==> items == Without(old(items), productId)
      ensures Valid()
    {
      UpdateKeepsUnique(items, productId, quantity);
      if quantity <= 0 {
        RemoveItem(productId);
        return;
      }
      items := WithQuantity(items, productId, quantity);
    }

    /** `clearCart()`. */
    method ClearCart()
      modifies this
      ensures items == [] && Valid()
    {
      items := [];
    }

    /** `getItemCount()`. */
    function GetItemCount(): (n: int)
      reads this
      ensures n == ItemCount(items)
    {
      ItemCount(items)
    }

    /** `getTotal()`. */
    function GetTotal(): (total: int)
      reads this
      ensures total == Helpers.CalculateCartTotal(items)
    {
      Helpers.CalculateCartTotal(items)
    }

    /** `hasItem(productId)`. */
    function HasItem(productId: string): (r: bool)
      reads this
      ensures r <==> GetItem(productId).Some?
    {
      exists i :: 0 <= i < |items| && items[i].product_id == productId
    }

    /** `getItem(productId)`. */
    function GetItem(productId: string): (r: Option<CartItem>)
      reads this
      ensures r.Some? ==> r.value in items && r.value.product_id == productId
      ensures r.None? ==> forall i :: 0 <= i < |items| ==> items[i].product_id != productId
    {
      FindItem(items, productId)
    }
  }
}
