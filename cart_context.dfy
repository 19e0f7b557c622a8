/** The shopping-cart aggregate of `CartProvider`: an ordered list of line items
    keyed by product id, the four transforms that compute each new list, and the
    store that holds the current list and replaces it on every update. */
module CartContext {
  import opened Wrappers

  type Id = string

  /** Attributes copied from the product record for rendering only. */
  datatype Display = Display(name: string, description: string, category: string, condition: string, image: string)

  /** A product record as the catalogue passes it to `addToCart`. `price` is the
      number `parseFloat` reads from it, in smallest currency units (`None`: NaN). */
  datatype Product = Product(id: Id, price: Option<int>, stock: int, display: Display)

  /** One line of the cart: the product's fields as copied when it was first
      added, together with the quantity the shopper intends to buy. */
  datatype Item = Item(id: Id, price: Option<int>, stock: int, display: Display, quantity: int)

  function Min(a: int, b: int): int { if a <= b then a else b }
  function Max(a: int, b: int): int { if a >= b then a else b }

  /** Some line of the cart carries this id. */
  predicate InCart(cart: seq<Item>, id: Id) {
    exists i :: 0 <= i < |cart| && cart[i].id == id
  }

  /** No two lines share an id. */
  predicate Unique(cart: seq<Item>) {
    forall i, j :: 0 <= i < j < |cart| ==> cart[i].id != cart[j].id
  }

  // ---------------------------------------------------------------------------
  // addToCart

  /** `currentCart.find(item => item._id === id)`: the first line with this id. */
  function Find(cart: seq<Item>, id: Id): Option<Item> {
    if cart == [] then None
    else if cart[0].id == id then Some(cart[0])
    else Find(cart[1..], id)
  }

  lemma {:induction false} FindFound(cart: seq<Item>, id: Id)
    ensures Find(cart, id).Some? <==> InCart(cart, id)
    ensures Find(cart, id).Some? ==> Find(cart, id).value in cart && Find(cart, id).value.id == id
  {
    if cart != [] && cart[0].id != id {
      FindFound(cart[1..], id);
      if InCart(cart, id) {
        var i :| 0 <= i < |cart| && cart[i].id == id;
        assert cart[1..][i - 1].id == id;
      }
    }
  }

  /** The line `{ ...product, quantity: 1 }` appended for a product not yet in the cart. */
  function NewItem(p: Product): Item {
    Item(p.id, p.price, p.stock, p.display, 1)
  }

  /** One step of the merging `map`: a line with the product's id gets
      `Math.min(item.quantity + 1, product.stock)`, with the argument's stock. */
  function Merge(item: Item, p: Product): Item {
    if item.id == p.id then item.(quantity := Min(item.quantity + 1, p.stock)) else item
  }

  /** The `map` that merges a product into the lines already holding it. */
  function Bump(cart: seq<Item>, p: Product): seq<Item> {
    if cart == [] then [] else [Merge(cart[0], p)] + Bump(cart[1..], p)
  }

  lemma {:induction false} BumpAt(cart: seq<Item>, p: Product)
    ensures |Bump(cart, p)| == |cart|
    ensures forall i :: 0 <= i < |cart| ==> Bump(cart, p)[i] == Merge(cart[i], p)
  {
    if cart != [] {
      BumpAt(cart[1..], p);
      forall i | 0 < i < |cart| ensures Bump(cart, p)[i] == Merge(cart[i], p) {
        assert Bump(cart, p)[i] == Bump(cart[1..], p)[i - 1];
      }
    }
  }

  /** The new cart computed by `addToCart(product)`. */
  function AddItem(cart: seq<Item>, p: Product): seq<Item> {
    if Find(cart, p.id).Some? then Bump(cart, p) else cart + [NewItem(p)]
  }

  /** A product whose id is absent is appended as one new line with quantity 1,
      whatever its stock; the earlier lines are untouched. */
  lemma {:induction false} AddAbsent(cart: seq<Item>, p: Product)
    requires !InCart(cart, p.id)
    ensures AddItem(cart, p) == cart + [Item(p.id, p.price, p.stock, p.display, 1)]
  {
    FindFound(cart, p.id);
  }

  /** A product whose id is present keeps length and order; only its line's
      quantity changes, to `min(old + 1, product.stock)`. */
  lemma {:induction false} AddPresent(cart: seq<Item>, p: Product, k: nat)
    requires Unique(cart)
    requires k < |cart| && cart[k].id == p.id
    ensures |AddItem(cart, p)| == |cart|
    ensures AddItem(cart, p)[k] == cart[k].(quantity := Min(cart[k].quantity + 1, p.stock))
    ensures forall i :: 0 <= i < |cart| && i != k ==> AddItem(cart, p)[i] == cart[i]
  {
    FindFound(cart, p.id);
    BumpAt(cart, p);
  }

  lemma {:induction false} AddKeepsUnique(cart: seq<Item>, p: Product)
    requires Unique(cart)
    ensures Unique(AddItem(cart, p))
  {
    FindFound(cart, p.id);
    BumpAt(cart, p);
    if !InCart(cart, p.id) {
      var r := AddItem(cart, p);
      forall i, j | 0 <= i < j < |r| ensures r[i].id != r[j].id {
        if j == |cart| {
          assert r[i] == cart[i];
        } else {
          assert r[i] == cart[i] && r[j] == cart[j];
        }
      }
    }
  }

  /** With stock of at least one, an add never leaves that product's line above
      the stock it was added with. */
  lemma {:induction false} AddWithinStock(cart: seq<Item>, p: Product)
    requires p.stock >= 1
    ensures forall i :: 0 <= i < |AddItem(cart, p)| && AddItem(cart, p)[i].id == p.id ==>
              AddItem(cart, p)[i].quantity <= p.stock
  {
    FindFound(cart, p.id);
    BumpAt(cart, p);
  }

  /** Once the line's quantity equals the product's stock, adding it again
      leaves the cart as it was. */
  lemma {:induction false} AddAtStock(cart: seq<Item>, p: Product, k: nat)
    requires Unique(cart)
    requires k < |cart| && cart[k].id == p.id && cart[k].quantity == p.stock
    ensures AddItem(cart, p) == cart
  {
    AddPresent(cart, p, k);
  }

  /** `n` successive calls of `addToCart(product)`. */
  function AddTimes(cart: seq<Item>, p: Product, n: nat): seq<Item> {
    if n == 0 then cart else AddItem(AddTimes(cart, p, n - 1), p)
  }

  /** Adding a product whose only line is the last one merges into that line. */
  lemma {:induction false} AddToLast(cart: seq<Item>, x: Item, p: Product)
    requires !InCart(cart, p.id) && x.id == p.id
    ensures AddItem(cart + [x], p) == cart + [x.(quantity := Min(x.quantity + 1, p.stock))]
  {
    var prev := cart + [x];
    assert prev[|cart|] == x;
    FindFound(prev, p.id);
    BumpAt(prev, p);
    var r := AddItem(prev, p);
    forall i | 0 <= i < |cart| ensures r[i] == cart[i] {
      assert prev[i] == cart[i];
    }
  }

  /** Adding a product that was absent `n >= 1` times yields a single line at
      the end whose quantity is 1 after the first add and `min(n, stock)` after
      that; with stock 0 the line holds 1 and then 0. */
  lemma {:induction false} AddRepeated(cart: seq<Item>, p: Product, n: nat)
    requires !InCart(cart, p.id) && n >= 1
    ensures AddTimes(cart, p, n) ==
              cart + [Item(p.id, p.price, p.stock, p.display, if n == 1 then 1 else Min(n, p.stock))]
  {
    if n == 1 {
      AddAbsent(cart, p);
    } else {
      AddRepeated(cart, p, n - 1);
      var q := if n - 1 == 1 then 1 else Min(n - 1, p.stock);
      AddToLast(cart, Item(p.id, p.price, p.stock, p.display, q), p);
      assert Min(q + 1, p.stock) == Min(n, p.stock);
    }
  }

  /** However often a product with stock of at least one is added, its line
      never exceeds that stock, and from `stock` adds on it equals it. */
  lemma {:induction false} AddConverges(cart: seq<Item>, p: Product, n: nat)
    requires !InCart(cart, p.id) && n >= 1 && p.stock >= 1
    ensures |AddTimes(cart, p, n)| == |cart| + 1
    ensures 1 <= AddTimes(cart, p, n)[|cart|].quantity <= p.stock
    ensures n >= p.stock ==> AddTimes(cart, p, n)[|cart|].quantity == p.stock
  {
    AddRepeated(cart, p, n);
  }

  // ---------------------------------------------------------------------------
  // updateCartItemQuantity

  /** `Math.max(1, Math.min(n, stock))`: the requested quantity clamped to
      `[1, stock]`, where the lower bound wins when the stock is below 1. */
  function Clamp(n: int, stock: int): (r: int)
    ensures r >= 1
    ensures stock >= 1 ==> r == (if n < 1 then 1 else if n > stock then stock else n)
    ensures stock < 1 ==> r == 1
  {
    Max(1, Min(n, stock))
  }

  /** The `map` of `updateCartItemQuantity(id, n)`: every line with the id gets
      the clamped quantity, checked against that line's own stored stock. */
  function UpdateQuantity(cart: seq<Item>, id: Id, n: int): seq<Item> {
    if cart == [] then []
    else [if cart[0].id == id then cart[0].(quantity := Clamp(n, cart[0].stock)) else cart[0]]
         + UpdateQuantity(cart[1..], id, n)
  }

  lemma {:induction false} UpdateAt(cart: seq<Item>, id: Id, n: int)
    ensures |UpdateQuantity(cart, id, n)| == |cart|
    ensures forall i :: 0 <= i < |cart| ==>
              UpdateQuantity(cart, id, n)[i] ==
                (if cart[i].id == id then cart[i].(quantity := Clamp(n, cart[i].stock)) else cart[i])
  {
    if cart != [] {
      UpdateAt(cart[1..], id, n);
      forall i | 0 < i < |cart| ensures UpdateQuantity(cart, id, n)[i] == UpdateQuantity(cart[1..], id, n)[i - 1] {
      }
    }
  }

  /** After an update every line with the id holds a quantity of at least 1,
      and of at most its stock when that stock is at least 1. */
  lemma {:induction false} UpdateBounds(cart: seq<Item>, id: Id, n: int)
    ensures forall i :: 0 <= i < |UpdateQuantity(cart, id, n)| && UpdateQuantity(cart, id, n)[i].id == id ==>
              1 <= UpdateQuantity(cart, id, n)[i].quantity &&
              (UpdateQuantity(cart, id, n)[i].stock >= 1 ==> UpdateQuantity(cart, id, n)[i].quantity <= UpdateQuantity(cart, id, n)[i].stock)
  {
    UpdateAt(cart, id, n);
  }

  /** Updating an id that no line carries changes nothing. */
  lemma {:induction false} UpdateAbsent(cart: seq<Item>, id: Id, n: int)
    requires !InCart(cart, id)
    ensures UpdateQuantity(cart, id, n) == cart
  {
    UpdateAt(cart, id, n);
  }

  lemma {:induction false} UpdateKeepsUnique(cart: seq<Item>, id: Id, n: int)
    requires Unique(cart)
    ensures Unique(UpdateQuantity(cart, id, n))
  {
    UpdateAt(cart, id, n);
  }

  // ---------------------------------------------------------------------------
  // removeFromCart

  /** `currentCart.filter(item => item._id !== id)`. */
  function Remove(cart: seq<Item>, id: Id): seq<Item> {
    if cart == [] then []
    else if cart[0].id != id then [cart[0]] + Remove(cart[1..], id)
    else Remove(cart[1..], id)
  }

  /** The lines left are exactly those of the cart with another id. */
  lemma {:induction false} RemoveMembers(cart: seq<Item>, id: Id)
    ensures forall x :: x in Remove(cart, id) <==> x in cart && x.id != id
    ensures !InCart(Remove(cart, id), id)
  {
    if cart != [] {
      RemoveMembers(cart[1..], id);
      assert cart == [cart[0]] + cart[1..];
    }
  }

  /** Filtering distributes over concatenation, so the kept lines stay in
      their original relative order. */
  lemma {:induction false} RemoveAppend(a: seq<Item>, b: seq<Item>, id: Id)
    ensures Remove(a + b, id) == Remove(a, id) + Remove(b, id)
  {
    if a != [] {
      RemoveAppend(a[1..], b, id);
      assert (a + b)[1..] == a[1..] + b;
    } else {
      assert a + b == b;
    }
  }

  /** Removing an id that no line carries changes nothing. */
  lemma {:induction false} RemoveAbsent(cart: seq<Item>, id: Id)
    requires !InCart(cart, id)
    ensures Remove(cart, id) == cart
  {
    if cart != [] {
      assert !InCart(cart[1..], id) by {
        forall i | 0 <= i < |cart[1..]| ensures cart[1..][i].id != id {
          assert cart[1..][i] == cart[i + 1];
        }
      }
      RemoveAbsent(cart[1..], id);
    }
  }

  /** In a cart without duplicate ids, removing the id of line `k` is cutting
      out exactly that line. */
  lemma {:induction false} RemoveAt(cart: seq<Item>, id: Id, k: nat)
    requires Unique(cart)
    requires k < |cart| && cart[k].id == id
    ensures Remove(cart, id) == cart[..k] + cart[k + 1..]
  {
    assert cart == cart[..k] + ([cart[k]] + cart[k + 1..]);
    RemoveAppend(cart[..k], [cart[k]] + cart[k + 1..], id);
    RemoveAppend([cart[k]], cart[k + 1..], id);
    assert !InCart(cart[..k], id) by {
      forall i | 0 <= i < k ensures cart[..k][i].id != id {
        assert cart[..k][i] == cart[i];
      }
    }
    var rest := cart[k + 1..];
    assert !InCart(rest, id) by {
      forall i | 0 <= i < |rest| ensures rest[i].id != id {
        assert rest[i] == cart[k + 1 + i];
      }
    }
    RemoveAbsent(cart[..k], id);
    RemoveAbsent(cart[k + 1..], id);
    assert Remove([cart[k]], id) == [];
  }

  lemma {:induction false} RemoveKeepsUnique(cart: seq<Item>, id: Id)
    requires Unique(cart)
    ensures Unique(Remove(cart, id))
  {
    if cart != [] {
      var tail := cart[1..];
      assert Unique(tail) by {
        forall i, j | 0 <= i < j < |tail| ensures tail[i].id != tail[j].id {
          assert tail[i] == cart[i + 1] && tail[j] == cart[j + 1];
        }
      }
      RemoveKeepsUnique(tail, id);
      if cart[0].id != id {
        var r, rest := Remove(cart, id), Remove(tail, id);
        RemoveMembers(tail, id);
        assert !InCart(rest, cart[0].id) by {
          forall j | 0 <= j < |rest| ensures rest[j].id != cart[0].id {
            assert rest[j] in tail;
            var m :| 0 <= m < |tail| && tail[m] == rest[j];
            assert tail[m] == cart[m + 1];
          }
        }
        assert r == [cart[0]] + rest;
        forall i, j | 0 <= i < j < |r| ensures r[i].id != r[j].id {
          assert r[j] == rest[j - 1];
          if i > 0 {
            assert r[i] == rest[i - 1];
          }
        }
      }
    }
  }

  // ---------------------------------------------------------------------------
  // The state cell

  /** The `cart` state of `CartProvider`. Every operation replaces the whole
      list with the value its transform computes from the current one. */
  class CartStore {
    var cart: seq<Item>

    /** The store never holds two lines with the same id. */
    ghost predicate Valid()
      reads this
    {
      Unique(cart)
    }

    /** `useState([])`: the cart starts empty. */
    constructor ()
      ensures Valid() && cart == []
    {
      cart := [];
    }

    method AddToCart(p: Product)
      requires Valid()
      modifies this
      ensures Valid() && cart == AddItem(old(cart), p)
    {
      AddKeepsUnique(cart, p);
      cart := AddItem(cart, p);
    }

    method UpdateCartItemQuantity(id: Id, n: int)
      requires Valid()
      modifies this
      ensures Valid() && cart == UpdateQuantity(old(cart), id, n)
    {
      UpdateKeepsUnique(cart, id, n);
      cart := UpdateQuantity(cart, id, n);
    }

    method RemoveFromCart(id: Id)
      requires Valid()
      modifies this
      ensures Valid() && cart == Remove(old(cart), id)
    {
      RemoveKeepsUnique(cart, id);
      cart := Remove(cart, id);
    }

    /** `setCart([])`, whatever the cart held. */
    method ClearCart()
      modifies this
      ensures Valid() && cart == []
    {
      cart := [];
    }
  }
}
