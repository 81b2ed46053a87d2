/** The coconut-oil cart shared by the product page
    (app/dashboard/coconut-oil/page.tsx) and the cart page
    (app/dashboard/coconut-oil/cart/page.tsx): the two products, `addToCart`,
    `updateQuantity` (the same on both pages), `removeItem`, the item count, and the
    subtotal and total with the flat delivery charge. Every operation builds a new
    list from the old one, as the pages do before handing it to `setCart`. */
module Cart {
  import opened Models

  /** A product as the page lists it, before it has a quantity. */
  datatype Product = Product(id: string, name: string, price: int, image: string, size: string)

  /** A line of the cart: a product and how many of it. */
  datatype CartItem = CartItem(id: string, name: string, price: int, image: string, quantity: int, size: string)

  /** `products`: half a litre for 150 and one litre for 280. */
  const Products: seq<Product> := [
    Product("half-liter", "Coconut Oil", 150, "/placeholder.svg?height=200&width=200", "500ml"),
    Product("one-liter", "Coconut Oil", 280, "/placeholder.svg?height=200&width=200", "1 Liter")]

  /** `deliveryCharge`. */
  const DeliveryCharge: int := 50

  /** No two lines of the cart share an id. */
  predicate UniqueIds(cart: seq<CartItem>)
  {
    forall i, j :: 0 <= i < j < |cart| ==> cart[i].id != cart[j].id
  }

  /** Every line has a positive quantity. */
  predicate AllPositive(cart: seq<CartItem>)
  {
    forall k :: 0 <= k < |cart| ==> cart[k].quantity > 0
  }

  /** Some line has the id. */
  predicate HasId(cart: seq<CartItem>, id: string)
  {
    exists k :: 0 <= k < |cart| && cart[k].id == id
  }

  // ---------------------------------------------------------------------------
  // addToCart

  /** `prevCart.find((item) => item.id === product.id)`. */
  function Find(cart: seq<CartItem>, id: string): (r: Option<CartItem>)
    ensures r.None? <==> !HasId(cart, id)
    ensures r.Some? ==> r.value in cart && r.value.id == id
  {
    if cart == [] then None
    else if cart[0].id == id then Some(cart[0])
    else
      var r := Find(cart[1..], id);
      assert HasId(cart, id) ==> cart[0].id == id || HasId(cart[1..], id) by {
        if HasId(cart, id) {
          var k :| 0 <= k < |cart| && cart[k].id == id;
          if k > 0 { assert cart[1..][k - 1].id == id; }
        }
      }
      assert HasId(cart[1..], id) ==> HasId(cart, id) by {
        if HasId(cart[1..], id) {
          var k :| 0 <= k < |cart[1..]| && cart[1..][k].id == id;
          assert cart[k + 1].id == id;
        }
      }
      r
  }

  /** `prevCart.map((item) => item.id === id ? { ...item, quantity: item.quantity + 1 } : item)`. */
  function Increment(cart: seq<CartItem>, id: string): (r: seq<CartItem>)
    ensures |r| == |cart|
    ensures forall k :: 0 <= k < |cart| ==> r[k] == if cart[k].id == id then cart[k].(quantity := cart[k].quantity + 1) else cart[k]
  {
    if cart == [] then []
    else [if cart[0].id == id then cart[0].(quantity := cart[0].quantity + 1) else cart[0]] + Increment(cart[1..], id)
  }

  /** `{ ...product, quantity: 1 }`. */
  function NewItem(product: Product): (item: CartItem)
    ensures item.id == product.id && item.name == product.name && item.price == product.price
    ensures item.image == product.image && item.size == product.size && item.quantity == 1
  {
    CartItem(product.id, product.name, product.price, product.image, 1, product.size)
  }

  /** `addToCart(product)`: one more of a product already in the cart, otherwise
      the product appended with quantity 1. */
  function AddToCart(cart: seq<CartItem>, product: Product): seq<CartItem>
  {
    if Find(cart, product.id).Some? then Increment(cart, product.id)
    else cart + [NewItem(product)]
  }

  /** Adding a product already in the cart: the list keeps its length and order,
      the line with that id gains one, and every other line is untouched. */
  lemma AddExisting(cart: seq<CartItem>, product: Product, i: nat)
    requires UniqueIds(cart) && i < |cart| && cart[i].id == product.id
    ensures |AddToCart(cart, product)| == |cart|
    ensures AddToCart(cart, product)[i] == cart[i].(quantity := cart[i].quantity + 1)
    ensures forall k :: 0 <= k < |cart| && k != i ==> AddToCart(cart, product)[k] == cart[k]
  {
    assert HasId(cart, product.id);
  }

  /** Adding a new product appends it, with quantity 1, after the existing lines. */
  lemma AddNew(cart: seq<CartItem>, product: Product)
    requires !HasId(cart, product.id)
    ensures AddToCart(cart, product) == cart + [NewItem(product)]
  {
  }

  /** addToCart keeps the ids unique and the quantities positive. */
  lemma AddToCartKeepsInvariant(cart: seq<CartItem>, product: Product)
    requires UniqueIds(cart) && AllPositive(cart)
    ensures UniqueIds(AddToCart(cart, product)) && AllPositive(AddToCart(cart, product))
  {
    var r := AddToCart(cart, product);
    if !HasId(cart, product.id) {
      assert forall k :: 0 <= k < |cart| ==> r[k] == cart[k];
      assert r[|cart|] == NewItem(product);
    }
  }

  // ---------------------------------------------------------------------------
  // The item count and the totals

  /** `cart.reduce((total, item) => total + item.quantity, 0)`, the badge count. */
  function CartCount(cart: seq<CartItem>): int
  {
    if cart == [] then 0 else CartCount(cart[..|cart| - 1]) + cart[|cart| - 1].quantity
  }

  /** `cart.reduce((total, item) => total + item.price * item.quantity, 0)`. */
  function Subtotal(cart: seq<CartItem>): int
  {
    if cart == [] then 0 else Subtotal(cart[..|cart| - 1]) + cart[|cart| - 1].price * cart[|cart| - 1].quantity
  }

  /** `subtotal + deliveryCharge`. */
  function Total(cart: seq<CartItem>): int
  {
    Subtotal(cart) + DeliveryCharge
  }

  /** An empty cart costs the delivery charge alone. */
  lemma EmptyCartTotals()
    ensures CartCount([]) == 0 && Subtotal([]) == 0 && Total([]) == 50
  {
  }

  /** The count and the subtotal of two carts put together add up. */
  lemma {:induction false} TotalsOfConcat(a: seq<CartItem>, b: seq<CartItem>)
    ensures CartCount(a + b) == CartCount(a) + CartCount(b)
    ensures Subtotal(a + b) == Subtotal(a) + Subtotal(b)
  {
    if b != [] {
      var ab := a + b;
      assert ab[..|ab| - 1] == a + b[..|b| - 1];
      assert ab[|ab| - 1] == b[|b| - 1];
      TotalsOfConcat(a, b[..|b| - 1]);
    } else {
      assert a + b == a;
    }
  }

  /** The count and the subtotal read from the front: the first line, then the rest. */
  lemma TotalsOfCons(cart: seq<CartItem>)
    requires cart != []
    ensures CartCount(cart) == cart[0].quantity + CartCount(cart[1..])
    ensures Subtotal(cart) == cart[0].price * cart[0].quantity + Subtotal(cart[1..])
  {
    assert cart == [cart[0]] + cart[1..];
    TotalsOfConcat([cart[0]], cart[1..]);
    assert [cart[0]][..0] == [];
  }

  /** Incrementing every line with the id raises the count by the number of such
      lines, which is one in a cart with unique ids. */
  lemma {:induction false} IncrementCount(cart: seq<CartItem>, id: string)
    requires UniqueIds(cart) && HasId(cart, id)
    ensures CartCount(Increment(cart, id)) == CartCount(cart) + 1
  {
    var tail := cart[1..];
    assert forall k :: 0 <= k < |tail| ==> tail[k] == cart[k + 1];
    if cart[0].id == id {
      assert !HasId(tail, id);
      IncrementMissing(tail, id);
    } else {
      var k :| 0 <= k < |cart| && cart[k].id == id;
      assert tail[k - 1].id == id;
      assert UniqueIds(tail);
      IncrementCount(tail, id);
    }
    IncrementCountStep(cart, id);
    TotalsOfCons(cart);
  }

  /** The count of an incremented cart, read from its first line. */
  lemma IncrementCountStep(cart: seq<CartItem>, id: string)
    requires cart != []
    ensures CartCount(Increment(cart, id)) ==
      CartCount(Increment(cart[1..], id)) + cart[0].quantity + (if cart[0].id == id then 1 else 0)
  {
    var r := Increment(cart, id);
    TotalsOfCons(r);
    assert r[1..] == Increment(cart[1..], id);
  }

  /** In a cart with unique ids, incrementing the line with the id raises the
      subtotal by that line's price. */
  lemma IncrementSubtotal(cart: seq<CartItem>, id: string)
    requires UniqueIds(cart) && HasId(cart, id)
    ensures Subtotal(Increment(cart, id)) == Subtotal(cart) + Find(cart, id).value.price
  {
    var i :| 0 <= i < |cart| && cart[i].id == id;
    FindUnique(cart, id, i);
    OnlyLineWithId(cart, id, i);
    IncrementSubtotalAt(cart, id, i);
  }

  /** Incrementing the one line that has the id raises the subtotal by its price. */
  lemma {:induction false} IncrementSubtotalAt(cart: seq<CartItem>, id: string, i: nat)
    requires i < |cart| && cart[i].id == id
    requires forall k | 0 <= k < |cart| && k != i :: cart[k].id != id
    ensures Subtotal(Increment(cart, id)) == Subtotal(cart) + cart[i].price
  {
    var tail := cart[1..];
    assert forall k :: 0 <= k < |tail| ==> tail[k] == cart[k + 1];
    if i == 0 {
      assert !HasId(tail, id);
      IncrementFirst(cart, id);
    } else {
      assert tail[i - 1] == cart[i];
      IncrementSubtotalAt(tail, id, i - 1);
      IncrementPastFirst(cart, id);
      TotalsOfCons(cart);
    }
  }

  /** Incrementing the first line, when no later line has its id. */
  lemma IncrementFirst(cart: seq<CartItem>, id: string)
    requires cart != [] && cart[0].id == id && !HasId(cart[1..], id)
    ensures Subtotal(Increment(cart, id)) == Subtotal(cart) + cart[0].price
  {
    var head := cart[0].(quantity := cart[0].quantity + 1);
    assert Increment(cart, id) == [head] + Increment(cart[1..], id);
    IncrementMissing(cart[1..], id);
    var r := [head] + cart[1..];
    assert r[1..] == cart[1..];
    TotalsOfCons(r);
    TotalsOfCons(cart);
    OneMore(cart[0].price, cart[0].quantity);
  }

  /** Incrementing past a first line without the id leaves that line. */
  lemma IncrementPastFirst(cart: seq<CartItem>, id: string)
    requires cart != [] && cart[0].id != id
    ensures Subtotal(Increment(cart, id)) == cart[0].price * cart[0].quantity + Subtotal(Increment(cart[1..], id))
  {
    var r := Increment(cart, id);
    assert r[1..] == Increment(cart[1..], id);
    assert r[0] == cart[0];
    TotalsOfCons(r);
  }

  lemma OneMore(price: int, quantity: int)
    ensures price * (quantity + 1) == price * quantity + price
  {
  }

  /** In a cart with unique ids, the line with the id is the one Find returns. */
  lemma FindUnique(cart: seq<CartItem>, id: string, i: nat)
    requires UniqueIds(cart) && i < |cart| && cart[i].id == id
    ensures Find(cart, id) == Some(cart[i])
  {
    assert HasId(cart, id);
    var j :| 0 <= j < |cart| && cart[j] == Find(cart, id).value;
    if j < i { assert cart[j].id != cart[i].id; }
    if j > i { assert cart[i].id != cart[j].id; }
  }

  /** In a cart with unique ids, no line but the `i`-th has its id. */
  lemma OnlyLineWithId(cart: seq<CartItem>, id: string, i: nat)
    requires UniqueIds(cart) && i < |cart| && cart[i].id == id
    ensures forall k | 0 <= k < |cart| && k != i :: cart[k].id != id
  {
    forall k | 0 <= k < |cart| && k != i
      ensures cart[k].id != id
    {
      if k < i { assert cart[k].id != cart[i].id; } else { assert cart[i].id != cart[k].id; }
    }
  }

  /** Incrementing an id no line has changes nothing. */
  lemma IncrementMissing(cart: seq<CartItem>, id: string)
    requires !HasId(cart, id)
    ensures Increment(cart, id) == cart
  {
    assert forall k :: 0 <= k < |cart| ==> cart[k].id != id;
  }

  /** Each addToCart raises the item count by exactly one. */
  lemma AddToCartCount(cart: seq<CartItem>, product: Product)
    requires UniqueIds(cart)
    ensures CartCount(AddToCart(cart, product)) == CartCount(cart) + 1
  {
    if HasId(cart, product.id) {
      IncrementCount(cart, product.id);
    } else {
      TotalsOfConcat(cart, [NewItem(product)]);
    }
  }

  /** Each addToCart raises the subtotal, and with it the total, by the price of one
      more of the product: the price on its line when it is in the cart, else its own. */
  lemma AddToCartTotal(cart: seq<CartItem>, product: Product)
    requires UniqueIds(cart)
    ensures var price := if HasId(cart, product.id) then Find(cart, product.id).value.price else product.price;
      Subtotal(AddToCart(cart, product)) == Subtotal(cart) + price &&
      Total(AddToCart(cart, product)) == Total(cart) + price
  {
    if HasId(cart, product.id) {
      IncrementSubtotal(cart, product.id);
    } else {
      TotalsOfConcat(cart, [NewItem(product)]);
    }
  }

  // ---------------------------------------------------------------------------
  // updateQuantity and removeItem

  /** The `map` step of `updateQuantity`: the lines with the id get
      `Math.max(0, item.quantity + change)`, the others stay. */
  function Adjust(cart: seq<CartItem>, id: string, change: int): (r: seq<CartItem>)
    ensures |r| == |cart|
    ensures forall k :: 0 <= k < |cart| ==>
      r[k] == if cart[k].id == id then cart[k].(quantity := Max0(cart[k].quantity + change)) else cart[k]
  {
    if cart == [] then []
    else [if cart[0].id == id then cart[0].(quantity := Max0(cart[0].quantity + change)) else cart[0]] + Adjust(cart[1..], id, change)
  }

  /** `Math.max(0, n)`. */
  function Max0(n: int): (m: int)
    ensures m >= 0 && m >= n && (m == n || m == 0)
  {
    if n > 0 then n else 0
  }

  /** The `filter((item) => item.quantity > 0)` step: the lines with a positive
      quantity, in order. */
  function KeepPositive(cart: seq<CartItem>): (r: seq<CartItem>)
    ensures AllPositive(r)
    ensures forall item :: item in r <==> item in cart && item.quantity > 0
    ensures Subsequence(r, cart)
  {
    if cart == [] then []
    else
      var rest := KeepPositive(cart[1..]);
      if cart[0].quantity > 0 then
        assert ([cart[0]] + rest)[1..] == rest;
        [cart[0]] + rest
      else
        SubsequenceWiden(rest, cart);
        rest
  }

  /** `updateQuantity(id, change)`. */
  function UpdateQuantity(cart: seq<CartItem>, id: string, change: int): (r: seq<CartItem>)
    ensures AllPositive(r)
  {
    KeepPositive(Adjust(cart, id, change))
  }

  /** `removeItem(id)`: `prevCart.filter((item) => item.id !== id)`. */
  function RemoveItem(cart: seq<CartItem>, id: string): (r: seq<CartItem>)
    ensures !HasId(r, id)
    ensures forall item :: item in r <==> item in cart && item.id != id
    ensures Subsequence(r, cart)
  {
    if cart == [] then []
    else
      var rest := RemoveItem(cart[1..], id);
      if cart[0].id != id then
        assert ([cart[0]] + rest)[1..] == rest;
        var r := [cart[0]] + rest;
        assert !HasId(r, id) by {
          forall k | 0 <= k < |r| ensures r[k].id != id {
            if k > 0 { assert r[k] == rest[k - 1]; }
          }
        }
        r
      else
        SubsequenceWiden(rest, cart);
        rest
  }

  /** A cart of positive quantities is its own filter. */
  lemma {:induction false} KeepPositiveOfPositive(cart: seq<CartItem>)
    requires AllPositive(cart)
    ensures KeepPositive(cart) == cart
  {
    if cart != [] {
      KeepPositiveOfPositive(cart[1..]);
      assert cart == [cart[0]] + cart[1..];
    }
  }

  /** The filter keeps only lines of positive quantity, so the lines of another id
      keep their order and quantities. */
  lemma UpdateQuantityLeavesOthers(cart: seq<CartItem>, id: string, change: int)
    requires AllPositive(cart)
    ensures RemoveItem(UpdateQuantity(cart, id, change), id) == RemoveItem(cart, id)
  {
    AdjustThenRemove(cart, id, change);
  }

  lemma {:induction false} AdjustThenRemove(cart: seq<CartItem>, id: string, change: int)
    requires AllPositive(cart)
    ensures RemoveItem(KeepPositive(Adjust(cart, id, change)), id) == RemoveItem(cart, id)
  {
    if cart != [] {
      var adjusted := Adjust(cart, id, change);
      assert adjusted[1..] == Adjust(cart[1..], id, change);
      AdjustThenRemove(cart[1..], id, change);
      var kept := KeepPositive(adjusted);
      if adjusted[0].quantity > 0 {
        assert kept == [adjusted[0]] + KeepPositive(adjusted[1..]);
        assert kept[0] == adjusted[0] && kept[1..] == KeepPositive(adjusted[1..]);
      }
    }
  }

  /** An id no line has leaves a cart of positive quantities as it was. */
  lemma UpdateQuantityUnknownId(cart: seq<CartItem>, id: string, change: int)
    requires AllPositive(cart) && !HasId(cart, id)
    ensures UpdateQuantity(cart, id, change) == cart
  {
    var adjusted := Adjust(cart, id, change);
    assert adjusted == cart;
    KeepPositiveOfPositive(cart);
  }

  /** One more and then one less gives the cart back. */
  lemma IncrementThenDecrement(cart: seq<CartItem>, id: string)
    requires AllPositive(cart)
    ensures UpdateQuantity(UpdateQuantity(cart, id, 1), id, -1) == cart
  {
    var up := Adjust(cart, id, 1);
    assert AllPositive(up);
    KeepPositiveOfPositive(up);
    var down := Adjust(up, id, -1);
    assert down == cart;
    KeepPositiveOfPositive(cart);
  }

  /** One less on a line of quantity 1 removes that line, and only it. */
  lemma DecrementLastRemoves(cart: seq<CartItem>, id: string, i: nat)
    requires UniqueIds(cart) && AllPositive(cart)
    requires i < |cart| && cart[i].id == id && cart[i].quantity == 1
    ensures UpdateQuantity(cart, id, -1) == RemoveItem(cart, id)
  {
    DecrementLast(cart, id);
  }

  lemma {:induction false} DecrementLast(cart: seq<CartItem>, id: string)
    requires AllPositive(cart)
    requires forall k :: 0 <= k < |cart| && cart[k].id == id ==> cart[k].quantity == 1
    ensures KeepPositive(Adjust(cart, id, -1)) == RemoveItem(cart, id)
  {
    if cart != [] {
      var adjusted := Adjust(cart, id, -1);
      assert adjusted[1..] == Adjust(cart[1..], id, -1);
      DecrementLast(cart[1..], id);
    }
  }

  /** Removing keeps the ids unique and the quantities positive. */
  lemma RemoveItemKeepsInvariant(cart: seq<CartItem>, id: string)
    requires UniqueIds(cart) && AllPositive(cart)
    ensures UniqueIds(RemoveItem(cart, id)) && AllPositive(RemoveItem(cart, id))
  {
    SubsequenceKeepsInvariant(RemoveItem(cart, id), cart);
  }

  /** Changing a quantity keeps the ids unique. */
  lemma UpdateQuantityKeepsInvariant(cart: seq<CartItem>, id: string, change: int)
    requires UniqueIds(cart)
    ensures UniqueIds(UpdateQuantity(cart, id, change))
  {
    var adjusted := Adjust(cart, id, change);
    assert UniqueIds(adjusted);
    SubsequenceKeepsInvariant(UpdateQuantity(cart, id, change), adjusted);
  }

  /** A subsequence of a cart with unique ids has unique ids, and one of a cart
      of positive quantities has positive quantities. */
  lemma {:induction false} SubsequenceKeepsInvariant(xs: seq<CartItem>, ys: seq<CartItem>)
    requires Subsequence(xs, ys) && UniqueIds(ys)
    ensures UniqueIds(xs)
    ensures AllPositive(ys) ==> AllPositive(xs)
  {
    if xs != [] && ys != [] {
      if xs[0] == ys[0] {
        SubsequenceKeepsInvariant(xs[1..], ys[1..]);
        SubsequenceElements(xs[1..], ys[1..]);
        forall j | 0 < j < |xs| ensures xs[0].id != xs[j].id {
          assert xs[j] == xs[1..][j - 1];
          assert xs[j] in ys[1..];
        }
      } else {
        SubsequenceKeepsInvariant(xs, ys[1..]);
      }
    }
  }

  /** The elements of a subsequence are elements of the sequence. */
  lemma {:induction false} SubsequenceElements<T>(xs: seq<T>, ys: seq<T>)
    requires Subsequence(xs, ys)
    ensures forall x :: x in xs ==> x in ys
  {
    if xs != [] && ys != [] {
      if xs[0] == ys[0] {
        SubsequenceElements(xs[1..], ys[1..]);
        assert xs == [xs[0]] + xs[1..];
      } else {
        SubsequenceElements(xs, ys[1..]);
      }
    }
  }

  /** Removing twice is removing once. */
  lemma RemoveItemIdempotent(cart: seq<CartItem>, id: string)
    ensures RemoveItem(RemoveItem(cart, id), id) == RemoveItem(cart, id)
  {
    RemoveMissing(RemoveItem(cart, id), id);
  }

  /** Removing an id no line has changes nothing. */
  lemma {:induction false} RemoveMissing(cart: seq<CartItem>, id: string)
    requires !HasId(cart, id)
    ensures RemoveItem(cart, id) == cart
  {
    if cart != [] {
      assert cart[0].id != id;
      assert !HasId(cart[1..], id) by {
        assert forall k :: 0 <= k < |cart[1..]| ==> cart[1..][k] == cart[k + 1];
      }
      RemoveMissing(cart[1..], id);
      assert cart == [cart[0]] + cart[1..];
    }
  }

  /** Removing the line with the id lowers the subtotal by exactly that line's
      price times its quantity. */
  lemma {:induction false} RemoveItemSubtotal(cart: seq<CartItem>, id: string, i: nat)
    requires UniqueIds(cart) && i < |cart| && cart[i].id == id
    ensures Subtotal(RemoveItem(cart, id)) == Subtotal(cart) - cart[i].price * cart[i].quantity
  {
    TotalsOfCons(cart);
    if i == 0 {
      assert !HasId(cart[1..], id) by {
        assert forall k :: 0 <= k < |cart[1..]| ==> cart[1..][k] == cart[k + 1];
      }
      RemoveMissing(cart[1..], id);
    } else {
      assert cart[0].id != id;
      assert cart[1..][i - 1] == cart[i];
      RemoveItemSubtotal(cart[1..], id, i - 1);
      var r := RemoveItem(cart, id);
      assert r == [cart[0]] + RemoveItem(cart[1..], id);
      TotalsOfCons(r);
      assert r[1..] == RemoveItem(cart[1..], id);
    }
  }
}
