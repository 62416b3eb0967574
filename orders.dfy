/**
 * The pure parts of checkout and cancellation: the stock guard, the pricing
 * arithmetic, the order-line snapshot, the stock accounting of the
 * decrement and restore loops, the cancel guard and the read access rule.
 */
module Orders {
  import opened Common
  import opened Catalog
  import opened Carts

  datatype Status = Processing | Shipped | Delivered | Cancelled

  /** An order line: a copy of the product's name and price at purchase time. */
  datatype OrderLine = OrderLine(product: ProductId, name: string, quantity: int, price: real)

  datatype Pricing = Pricing(itemsPrice: real, taxPrice: real, shippingPrice: real, totalPrice: real)

  datatype Order = Order(
    user: UserId,
    items: seq<OrderLine>,
    shippingAddress: string,
    paymentId: string,
    pricing: Pricing,
    isPaid: bool,
    status: Status)

  /** What the payment gateway answers for the confirmed payment intent. */
  datatype PaymentIntent = PaymentIntent(id: string, succeeded: bool)

  const FreeShippingAbove := 100.0
  const FlatShipping := 10.0

  predicate AllInCatalog(products: map<ProductId, Product>, items: seq<CartItem>)
  {
    forall i :: 0 <= i < |items| ==> items[i].product in products
  }

  /** A cart line passes the stock guard: its product resolves and has enough stock. */
  predicate Available(products: map<ProductId, Product>, item: CartItem)
  {
    item.product in products && products[item.product].stock >= item.quantity
  }

  /**
   * The stock-check loop of `createOrder`: the index of the first line whose
   * product is missing or short of stock, or None when every line passes.
   */
  method CheckStock(products: map<ProductId, Product>, items: seq<CartItem>) returns (failed: Option<nat>)
    ensures failed.None? <==> forall i :: 0 <= i < |items| ==> Available(products, items[i])
    ensures failed.Some? ==>
      && failed.value < |items|
      && !Available(products, items[failed.value])
      && forall i :: 0 <= i < failed.value ==> Available(products, items[i])
  {
    var i := 0;
    while i < |items|
      invariant 0 <= i <= |items|
      invariant forall j :: 0 <= j < i ==> Available(products, items[j])
    {
      if !Available(products, items[i]) {
        return Some(i);
      }
      i := i + 1;
    }
    return None;
  }

  /** `cart.items.reduce((sum, item) => sum + item.product.price * item.quantity, 0)`. */
  function ItemsPrice(products: map<ProductId, Product>, items: seq<CartItem>): (total: real)
    requires AllInCatalog(products, items)
    ensures items == [] ==> total == 0.0
    ensures (forall i :: 0 <= i < |items| ==> products[items[i].product].price >= 0.0 && items[i].quantity >= 0)
            ==> total >= 0.0
  {
    if items == [] then 0.0
    else
      var last := items[|items| - 1];
      ItemsPrice(products, items[..|items| - 1]) + products[last.product].price * last.quantity as real
  }

  /** While every product resolves, the cart total and the checkout's itemsPrice agree. */
  lemma {:induction false} CartTotalIsItemsPrice(products: map<ProductId, Product>, items: seq<CartItem>)
    requires AllInCatalog(products, items)
    ensures CartTotal(products, items) == ItemsPrice(products, items)
  {
    if items != [] {
      CartTotalIsItemsPrice(products, items[..|items| - 1]);
    }
  }

  /** The price breakdown: 10% tax, shipping free strictly above 100 and 10 otherwise. */
  function PriceOrder(itemsPrice: real): (p: Pricing)
    ensures p.itemsPrice == itemsPrice
    ensures 10.0 * p.taxPrice == itemsPrice
    ensures p.shippingPrice == 0.0 <==> itemsPrice > FreeShippingAbove
    ensures p.shippingPrice == 0.0 || p.shippingPrice == FlatShipping
    ensures p.totalPrice == p.itemsPrice + p.taxPrice + p.shippingPrice
  {
    var tax := itemsPrice * 0.1;
    var shipping := if itemsPrice > FreeShippingAbove then 0.0 else FlatShipping;
    Pricing(itemsPrice, tax, shipping, itemsPrice + tax + shipping)
  }

  /** Two worked examples: at exactly 100 shipping is still charged, above it it is free. */
  lemma PricingExamples(products: map<ProductId, Product>, a: ProductId, b: ProductId)
    requires a in products && products[a].price == 50.0
    requires b in products && products[b].price == 60.0
    ensures PriceOrder(ItemsPrice(products, [CartItem(a, 2)])) == Pricing(100.0, 10.0, 10.0, 120.0)
    ensures PriceOrder(ItemsPrice(products, [CartItem(b, 2)])) == Pricing(120.0, 12.0, 0.0, 132.0)
  {
    assert [CartItem(a, 2)][..0] == [];
    assert [CartItem(b, 2)][..0] == [];
  }

  /** `cart.items.map(...)`: one line per cart entry, in order, with name and price copied. */
  function Snapshot(products: map<ProductId, Product>, items: seq<CartItem>): (lines: seq<OrderLine>)
    requires AllInCatalog(products, items)
    ensures |lines| == |items|
    ensures forall i :: 0 <= i < |items| ==>
      lines[i] == OrderLine(items[i].product, products[items[i].product].name,
                            items[i].quantity, products[items[i].product].price)
  {
    if items == [] then []
    else
      var last := items[|items| - 1];
      Snapshot(products, items[..|items| - 1])
      + [OrderLine(last.product, products[last.product].name, last.quantity, products[last.product].price)]
  }

  /** The (product, quantity) pairs of order lines, as the restore loop reads them. */
  function Quantities(lines: seq<OrderLine>): (items: seq<CartItem>)
    ensures |items| == |lines|
    ensures forall i :: 0 <= i < |lines| ==> items[i] == CartItem(lines[i].product, lines[i].quantity)
  {
    if lines == [] then []
    else Quantities(lines[..|lines| - 1]) + [CartItem(lines[|lines| - 1].product, lines[|lines| - 1].quantity)]
  }

  /** Σ price × quantity over stored order lines. */
  function LinesTotal(lines: seq<OrderLine>): real
  {
    if lines == [] then 0.0
    else LinesTotal(lines[..|lines| - 1]) + lines[|lines| - 1].price * lines[|lines| - 1].quantity as real
  }

  /** Projecting the snapshot back gives the cart it was taken from. */
  lemma SnapshotQuantities(products: map<ProductId, Product>, items: seq<CartItem>)
    requires AllInCatalog(products, items)
    ensures Quantities(Snapshot(products, items)) == items
  {
  }

  /** The stored itemsPrice is exactly the sum over the stored order lines. */
  lemma {:induction false} SnapshotTotal(products: map<ProductId, Product>, items: seq<CartItem>)
    requires AllInCatalog(products, items)
    ensures LinesTotal(Snapshot(products, items)) == ItemsPrice(products, items)
  {
    if items != [] {
      var n := |items| - 1;
      var lines := Snapshot(products, items);
      assert lines[..n] == Snapshot(products, items[..n]);
      SnapshotTotal(products, items[..n]);
    }
  }

  /** The catalog after the decrement loop: each product loses the quantity bought. */
  function Decrement(products: map<ProductId, Product>, items: seq<CartItem>): (d: map<ProductId, Product>)
    ensures d.Keys == products.Keys
    ensures forall p :: p in d ==> d[p].(stock := products[p].stock) == products[p]
  {
    map p | p in products :: products[p].(stock := products[p].stock - QtyOf(items, p))
  }

  /** The catalog after the restore loop of a cancellation: each product regains its quantity. */
  function Restore(products: map<ProductId, Product>, items: seq<CartItem>): (d: map<ProductId, Product>)
    ensures d.Keys == products.Keys
    ensures forall p :: p in d ==> d[p].(stock := products[p].stock) == products[p]
  {
    map p | p in products :: products[p].(stock := products[p].stock + QtyOf(items, p))
  }

  /** One more turn of the decrement loop (a `$inc` on a missing product changes nothing). */
  lemma DecrementExtend(products: map<ProductId, Product>, items: seq<CartItem>, i: nat)
    requires i < |items|
    ensures Decrement(products, items[..i + 1])
         == var d := Decrement(products, items[..i]);
            var pid := items[i].product;
            if pid in d then d[pid := d[pid].(stock := d[pid].stock - items[i].quantity)] else d
  {
    assert items[..i + 1][..i] == items[..i];
  }

  /** One more turn of the restore loop. */
  lemma RestoreExtend(products: map<ProductId, Product>, items: seq<CartItem>, i: nat)
    requires i < |items|
    ensures Restore(products, items[..i + 1])
         == var d := Restore(products, items[..i]);
            var pid := items[i].product;
            if pid in d then d[pid := d[pid].(stock := d[pid].stock + items[i].quantity)] else d
  {
    assert items[..i + 1][..i] == items[..i];
  }

  lemma DecrementNothing(products: map<ProductId, Product>)
    ensures Decrement(products, []) == products
  {
  }

  lemma RestoreNothing(products: map<ProductId, Product>)
    ensures Restore(products, []) == products
  {
  }

  /**
   * With unique cart entries, a purchased product's stock drops by exactly its
   * line's quantity, and a product not in the cart keeps its stock.
   */
  lemma DecrementExact(products: map<ProductId, Product>, items: seq<CartItem>, p: ProductId)
    requires UniqueProducts(items)
    requires p in products
    ensures p in Decrement(products, items)
    ensures forall k :: 0 <= k < |items| && items[k].product == p ==>
              Decrement(products, items)[p].stock == products[p].stock - items[k].quantity
    ensures !InCart(items, p) ==> Decrement(products, items)[p] == products[p]
  {
    forall k | 0 <= k < |items| && items[k].product == p
      ensures Decrement(products, items)[p].stock == products[p].stock - items[k].quantity
    {
      QtyOfUnique(items, k);
    }
    if !InCart(items, p) {
      QtyOfAbsent(items, p);
    }
  }

  /**
   * The stock guard and unique entries together keep every stock non-negative
   * through the decrement loop.
   */
  lemma DecrementKeepsStockNonNegative(products: map<ProductId, Product>, items: seq<CartItem>)
    requires UniqueProducts(items)
    requires forall i :: 0 <= i < |items| ==> Available(products, items[i])
    requires forall p :: p in products ==> products[p].stock >= 0
    ensures forall p :: p in Decrement(products, items) ==> Decrement(products, items)[p].stock >= 0
  {
    forall p | p in products ensures Decrement(products, items)[p].stock >= 0 {
      if InCart(items, p) {
        var k :| 0 <= k < |items| && items[k].product == p;
        DecrementExact(products, items, p);
      } else {
        QtyOfAbsent(items, p);
      }
    }
  }

  /** Cancelling right after the purchase gives every product its stock back. */
  lemma RestoreUndoesDecrement(products: map<ProductId, Product>, items: seq<CartItem>)
    ensures Restore(Decrement(products, items), items) == products
  {
    var r := Restore(Decrement(products, items), items);
    assert r.Keys == products.Keys;
    forall p | p in products ensures r[p] == products[p] {
    }
  }

  /** A second cancellation restores the quantities a second time. */
  lemma RestoreTwice(products: map<ProductId, Product>, items: seq<CartItem>, p: ProductId)
    requires p in products
    ensures p in Restore(Restore(products, items), items)
    ensures Restore(Restore(products, items), items)[p].stock == products[p].stock + 2 * QtyOf(items, p)
  {
  }

  /**
   * The guard of `cancelOrder` as written: only Shipped and Delivered block it,
   * so an order that is already Cancelled passes again.
   */
  predicate Cancellable(s: Status): (ok: bool)
    ensures ok <==> s == Processing || s == Cancelled
  {
    !(s == Shipped || s == Delivered)
  }

  /** `getOrderById`: a missing order is 404; only its owner or an admin may read it. */
  function GetOrderById(orders: map<OrderId, Order>, id: OrderId, caller: Caller): (r: Result<Order>)
    ensures r.Ok? <==> id in orders && (orders[id].user == caller.id || caller.role == Admin)
    ensures r.Ok? ==> r.value == orders[id]
    ensures r.Err? ==> r.error == (if id in orders then NotAuthorized else OrderNotFound)
  {
    if id !in orders then Err(OrderNotFound)
    else if orders[id].user != caller.id && caller.role != Admin then Err(NotAuthorized)
    else Ok(orders[id])
  }
}
