/** The checkout boundary of the cart page: the cart total, the order payload
    built from the cart, and the submit handler that sends it and clears the
    cart only once the order service has accepted it. */
module CartPage {
  import opened Wrappers
  import opened CartContext

  // ---------------------------------------------------------------------------
  // calculateTotal

  /** `parseFloat(item.price) * item.quantity`; a NaN price gives a NaN amount. */
  function LineAmount(item: Item): Option<int> {
    match item.price
    case None => None
    case Some(price) => Some(price * item.quantity)
  }

  /** Number addition where NaN on either side yields NaN. */
  function Plus(a: Option<int>, b: Option<int>): Option<int> {
    if a.Some? && b.Some? then Some(a.value + b.value) else None
  }

  /** `cart.reduce((sum, item) => sum + amount(item), acc)`, folding from the left. */
  function Reduce(acc: Option<int>, cart: seq<Item>): Option<int>
    decreases cart
  {
    if cart == [] then acc else Reduce(Plus(acc, LineAmount(cart[0])), cart[1..])
  }

  /** `calculateTotal()`: the reduce started at 0. */
  function CalculateTotal(cart: seq<Item>): Option<int> {
    Reduce(Some(0), cart)
  }

  /** Every line's price reads as a number. */
  predicate Priced(cart: seq<Item>) {
    forall i :: 0 <= i < |cart| ==> cart[i].price.Some?
  }

  /** Reference definition of the total: the sum of price times quantity. */
  function Amount(cart: seq<Item>): int
    requires Priced(cart)
  {
    if cart == [] then 0 else cart[0].price.value * cart[0].quantity + Amount(cart[1..])
  }

  lemma {:induction false} ReduceNaN(cart: seq<Item>)
    ensures Reduce(None, cart) == None
  {
    if cart != [] {
      ReduceNaN(cart[1..]);
    }
  }

  lemma {:induction false} ReduceSum(acc: int, cart: seq<Item>)
    decreases cart
    ensures Reduce(Some(acc), cart) == if Priced(cart) then Some(acc + Amount(cart)) else None
  {
    if cart != [] {
      var tail := cart[1..];
      assert Priced(cart) <==> cart[0].price.Some? && Priced(tail) by {
        if cart[0].price.Some? && Priced(tail) {
          forall i | 0 < i < |cart| ensures cart[i].price.Some? {
            assert cart[i] == tail[i - 1];
          }
        }
        if Priced(cart) {
          forall i | 0 <= i < |tail| ensures tail[i].price.Some? {
            assert tail[i] == cart[i + 1];
          }
        }
      }
      if cart[0].price.Some? {
        ReduceSum(acc + cart[0].price.value * cart[0].quantity, tail);
      } else {
        ReduceNaN(tail);
      }
    }
  }

  /** The total is the sum of price times quantity over the cart, or NaN as
      soon as one price is unreadable; the empty cart totals 0. */
  lemma TotalIsSum(cart: seq<Item>)
    ensures CalculateTotal(cart) == if Priced(cart) then Some(Amount(cart)) else None
    ensures cart == [] ==> CalculateTotal(cart) == Some(0)
  {
    ReduceSum(0, cart);
  }

  lemma {:induction false} AmountAppend(a: seq<Item>, b: seq<Item>)
    requires Priced(a) && Priced(b)
    ensures Priced(a + b) && Amount(a + b) == Amount(a) + Amount(b)
  {
    if a == [] {
      assert a + b == b;
    } else {
      assert Priced(a[1..]) by {
        forall i | 0 <= i < |a[1..]| ensures a[1..][i].price.Some? {
          assert a[1..][i] == a[i + 1];
        }
      }
      AmountAppend(a[1..], b);
      assert (a + b)[1..] == a[1..] + b;
    }
  }

  /** Adding a product not yet in the cart raises the total by its price, or
      makes it NaN when that price is unreadable. */
  lemma TotalAfterAddNew(cart: seq<Item>, p: Product)
    requires !InCart(cart, p.id)
    ensures CalculateTotal(AddItem(cart, p)) ==
              if Priced(cart) && p.price.Some? then Some(Amount(cart) + p.price.value) else None
  {
    AddAbsent(cart, p);
    var line := Item(p.id, p.price, p.stock, p.display, 1);
    var r := cart + [line];
    TotalIsSum(cart);
    TotalIsSum(r);
    assert r[|cart|] == line;
    if Priced(cart) && p.price.Some? {
      AmountAppend(cart, [line]);
    } else if !Priced(cart) {
      var i :| 0 <= i < |cart| && cart[i].price.None?;
      assert r[i] == cart[i];
    }
  }

  /** A cart whose lines all have a positive price and a positive quantity has
      a positive total. */
  lemma {:induction false} AmountPositive(cart: seq<Item>)
    requires cart != [] && Priced(cart)
    requires forall i :: 0 <= i < |cart| ==> cart[i].price.value >= 1 && cart[i].quantity >= 1
    ensures Amount(cart) >= 1
  {
    var tail := cart[1..];
    assert cart[0].price.value * cart[0].quantity >= 1 by {
      var pr, q := cart[0].price.value, cart[0].quantity;
      assert pr * q >= 1 * q;
    }
    if tail != [] {
      assert Priced(tail) && forall i :: 0 <= i < |tail| ==> tail[i].price.value >= 1 && tail[i].quantity >= 1 by {
        forall i | 0 <= i < |tail| ensures tail[i] == cart[i + 1] { }
      }
      AmountPositive(tail);
    }
  }

  // ---------------------------------------------------------------------------
  // The order payload

  /** One `{ product: item._id, quantity: item.quantity }` entry. */
  datatype OrderLine = OrderLine(product: Id, quantity: int)

  /** The fields of the order form spread into the payload. */
  datatype OrderDetails = OrderDetails(name: string, email: string, phone: string, address: string, additionalInfo: string)

  /** The request body handed to `createOrder`. */
  datatype OrderData = OrderData(products: seq<OrderLine>, total: int, details: OrderDetails)

  /** The only error raised before the request: `'Invalid total amount'`. */
  datatype OrderError = InvalidTotal

  /** `cart.map(item => ({ product: item._id, quantity: item.quantity }))`. */
  function Lines(cart: seq<Item>): seq<OrderLine> {
    if cart == [] then [] else [OrderLine(cart[0].id, cart[0].quantity)] + Lines(cart[1..])
  }

  lemma {:induction false} LinesAt(cart: seq<Item>)
    ensures |Lines(cart)| == |cart|
    ensures forall i :: 0 <= i < |cart| ==> Lines(cart)[i] == OrderLine(cart[i].id, cart[i].quantity)
  {
    if cart != [] {
      LinesAt(cart[1..]);
      forall i | 0 < i < |cart| ensures Lines(cart)[i] == Lines(cart[1..])[i - 1] { }
    }
  }

  /** The part of `handlePlaceOrder` before the request: the total guard
      (`isNaN(total) || total <= 0` throws) and the payload. */
  function BuildOrder(cart: seq<Item>, details: OrderDetails): Result<OrderData, OrderError> {
    match CalculateTotal(cart)
    case None => Failure(InvalidTotal)
    case Some(total) =>
      if total <= 0 then Failure(InvalidTotal) else Success(OrderData(Lines(cart), total, details))
  }

  /** No order is built when a price is unreadable or the total is not
      positive (so never for the empty cart); otherwise the payload lists the
      cart's lines in order with their quantities, carries the cart's total
      and the form's fields. */
  lemma BuildOrderSpec(cart: seq<Item>, details: OrderDetails)
    ensures BuildOrder(cart, details).Failure? <==> !Priced(cart) || Amount(cart) <= 0
    ensures cart == [] ==> BuildOrder(cart, details).Failure?
    ensures BuildOrder(cart, details).Success? ==>
              var order := BuildOrder(cart, details).value;
              CalculateTotal(cart) == Some(order.total) && order.total == Amount(cart) &&
              order.details == details &&
              |order.products| == |cart| &&
              forall i :: 0 <= i < |cart| ==> order.products[i] == OrderLine(cart[i].id, cart[i].quantity)
  {
    TotalIsSum(cart);
    LinesAt(cart);
  }

  /** A cart of lines with positive prices and quantities always passes the
      total guard. */
  lemma PositiveCartBuilds(cart: seq<Item>, details: OrderDetails)
    requires cart != [] && Priced(cart)
    requires forall i :: 0 <= i < |cart| ==> cart[i].price.value >= 1 && cart[i].quantity >= 1
    ensures BuildOrder(cart, details).Success?
  {
    AmountPositive(cart);
    BuildOrderSpec(cart, details);
  }

  // ---------------------------------------------------------------------------
  // handlePlaceOrder

  /** The alert shown at the end of the handler. */
  datatype Notice = OrderPlaced | OrderFailed

  /** The page's own state next to the shared cart: the form's fields and
      whether the order form is shown. */
  class CheckoutPage {
    const store: CartStore
    var details: OrderDetails
    var showOrderForm: bool

    constructor (store: CartStore)
      ensures this.store == store
      ensures details == OrderDetails("", "", "", "", "") && !showOrderForm
    {
      this.store := store;
      details := OrderDetails("", "", "", "", "");
      showOrderForm := false;
    }

    /** Submits the cart. `createOrder` stands for the order service: it is
        given the payload and answers whether the request succeeded. The
        result says which payload, if any, was sent and which notice shown. */
    method PlaceOrder(createOrder: OrderData -> bool) returns (sent: Option<OrderData>, notice: Notice)
      requires store.Valid()
      modifies this, store
      ensures store.Valid() && details == old(details)
      ensures BuildOrder(old(store.cart), details).Failure? ==>
                sent == None && notice == OrderFailed &&
                store.cart == old(store.cart) && showOrderForm == old(showOrderForm)
      ensures BuildOrder(old(store.cart), details).Success? ==>
                sent == Some(BuildOrder(old(store.cart), details).value)
      ensures sent.Some? && createOrder(sent.value) ==>
                store.cart == [] && !showOrderForm && notice == OrderPlaced
      ensures sent.Some? && !createOrder(sent.value) ==>
                store.cart == old(store.cart) && showOrderForm == old(showOrderForm) && notice == OrderFailed
    {
      var built := BuildOrder(store.cart, details);
      if built.Failure? {
        sent, notice := None, OrderFailed;
        return;
      }
      sent := Some(built.value);
      if createOrder(built.value) {
        store.ClearCart();
        showOrderForm := false;
        notice := OrderPlaced;
      } else {
        notice := OrderFailed;
      }
    }
  }

  /** A client of the store and the page: a product with stock 5 added twice
      gives one line of quantity 2 and a total of 200; an order the service
      refuses leaves that cart as it was, and one it accepts empties it. */
  method CheckoutScenario(accept: OrderData -> bool)
  {
    var store := new CartStore();
    var d := Display("Phone", "", "", "new", "");
    var p1 := Product("p1", Some(100), 5, d);
    store.AddToCart(p1);
    AddAbsent([], p1);
    assert store.cart == [Item("p1", Some(100), 5, d, 1)];
    store.AddToCart(p1);
    AddPresent([Item("p1", Some(100), 5, d, 1)], p1, 0);
    assert |store.cart| == 1 && store.cart[0] == Item("p1", Some(100), 5, d, 2);
    assert store.cart == [Item("p1", Some(100), 5, d, 2)];
    TotalIsSum(store.cart);
    assert CalculateTotal(store.cart) == Some(200);

    var page := new CheckoutPage(store);
    var before := store.cart;
    BuildOrderSpec(before, page.details);
    var sent, notice := page.PlaceOrder(_ => false);
    assert sent.Some? && notice == OrderFailed && store.cart == before;
    sent, notice := page.PlaceOrder(_ => true);
    assert notice == OrderPlaced && store.cart == [];
  }
}
