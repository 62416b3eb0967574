/**
 * The store the controllers read and write, with one method per controller
 * action. Each action is one atomic step: the database round trips, the
 * HTTP envelope and the payment call are outside it (the payment outcome is
 * a parameter, and fresh document ids are supplied by the caller).
 */
module Shop {
  import opened Common
  import opened Catalog
  import opened Carts
  import opened Orders
  import opened Reviews

  class Store {
    var products: map<ProductId, Product>
    var carts: map<UserId, Cart>
    var orders: map<OrderId, Order>
    var reviews: seq<Review>

    /**
     * What every action keeps: one cart entry per product, review ids and
     * (product, user) pairs unique, every stored review within the schema.
     * Products are not in it: `findByIdAndUpdate` bypasses the schema.
     */
    ghost predicate Valid()
      reads this
    {
      && (forall u :: u in carts ==> UniqueProducts(carts[u].items))
      && UniqueReviews(reviews)
      && (forall i :: 0 <= i < |reviews| ==> ValidReview(reviews[i]))
    }

    constructor (catalog: map<ProductId, Product>)
      ensures Valid()
      ensures products == catalog && carts == map[] && orders == map[] && reviews == []
    {
      products := catalog;
      carts := map[];
      orders := map[];
      reviews := [];
    }

    // ---------------------------------------------------------------- carts

    /** `getCart`: create an empty cart on first access; report it with its current total. */
    method GetCart(user: UserId) returns (cart: Cart)
      requires Valid()
      modifies this
      ensures Valid()
      ensures products == old(products) && orders == old(orders) && reviews == old(reviews)
      ensures user in old(carts) ==> carts == old(carts)
      ensures user !in old(carts) ==> carts == old(carts)[user := Cart([], 0.0)]
      ensures cart == Cart(carts[user].items, CartTotal(products, carts[user].items))
    {
      if user !in carts {
        carts := carts[user := Cart([], 0.0)];
      }
      cart := Cart(carts[user].items, CartTotal(products, carts[user].items));
    }

    /**
     * `addToCart`: 404 for an unknown product, 400 when the stock is below
     * the requested quantity (the quantity already in the cart is not
     * counted), otherwise merge into the existing entry or append one.
     */
    method AddToCart(user: UserId, pid: ProductId, quantity: int) returns (r: Result<Cart>)
      requires Valid()
      modifies this
      ensures Valid()
      ensures products == old(products) && orders == old(orders) && reviews == old(reviews)
      ensures pid !in products ==> r == Err(ProductNotFound) && carts == old(carts)
      ensures pid in products && products[pid].stock < quantity ==>
                r == Err(InsufficientStock(pid)) && carts == old(carts)
      ensures pid in products && products[pid].stock >= quantity ==>
                var items := AddItem(ItemsOf(old(carts), user), pid, quantity);
                && r == Ok(Cart(items, CartTotal(products, items)))
                && carts == old(carts)[user := r.value]
    {
      if pid !in products {
        return Err(ProductNotFound);
      }
      if products[pid].stock < quantity {
        return Err(InsufficientStock(pid));
      }
      var items: seq<CartItem>;
      if user !in carts {
        items := [CartItem(pid, quantity)];
        assert items == AddItem([], pid, quantity);
      } else {
        items := AddItem(carts[user].items, pid, quantity);
      }
      r := Ok(Cart(items, CartTotal(products, items)));
      carts := carts[user := r.value];
    }

    /**
     * `updateCartItem`: 404 without a cart or without an entry for the
     * product; a quantity of at most 0 removes the entry, any other value
     * replaces its quantity (no stock check).
     */
    method UpdateCartItem(user: UserId, pid: ProductId, quantity: int) returns (r: Result<Cart>)
      requires Valid()
      modifies this
      ensures Valid()
      ensures products == old(products) && orders == old(orders) && reviews == old(reviews)
      ensures user !in old(carts) ==> r == Err(CartNotFound) && carts == old(carts)
      ensures user in old(carts) && !InCart(old(carts)[user].items, pid) ==>
                r == Err(ItemNotFound) && carts == old(carts)
      ensures user in old(carts) && InCart(old(carts)[user].items, pid) ==>
                var before := old(carts)[user].items;
                var items := SetQuantity(before, FindIndex(before, pid), quantity);
                && r == Ok(Cart(items, CartTotal(products, items)))
                && carts == old(carts)[user := r.value]
    {
      if user !in carts {
        return Err(CartNotFound);
      }
      var k := FindIndex(carts[user].items, pid);
      if k == -1 {
        return Err(ItemNotFound);
      }
      var items := SetQuantity(carts[user].items, k, quantity);
      r := Ok(Cart(items, CartTotal(products, items)));
      carts := carts[user := r.value];
    }

    /** `removeFromCart`: 404 without a cart; otherwise drop every entry for the product. */
    method RemoveFromCart(user: UserId, pid: ProductId) returns (r: Result<Cart>)
      requires Valid()
      modifies this
      ensures Valid()
      ensures products == old(products) && orders == old(orders) && reviews == old(reviews)
      ensures user !in old(carts) ==> r == Err(CartNotFound) && carts == old(carts)
      ensures user in old(carts) ==>
                var items := RemoveProduct(old(carts)[user].items, pid);
                && r == Ok(Cart(items, CartTotal(products, items)))
                && carts == old(carts)[user := r.value]
    {
      if user !in carts {
        return Err(CartNotFound);
      }
      var items := RemoveProduct(carts[user].items, pid);
      RemoveProductKeepsUnique(carts[user].items, pid);
      r := Ok(Cart(items, CartTotal(products, items)));
      carts := carts[user := r.value];
    }

    /** `clearCart`: 404 without a cart; otherwise no entries and a total of 0. */
    method ClearCart(user: UserId) returns (r: Result<Cart>)
      requires Valid()
      modifies this
      ensures Valid()
      ensures products == old(products) && orders == old(orders) && reviews == old(reviews)
      ensures user !in old(carts) ==> r == Err(CartNotFound) && carts == old(carts)
      ensures user in old(carts) ==> r == Ok(Cart([], 0.0)) && carts == old(carts)[user := Cart([], 0.0)]
    {
      if user !in carts {
        return Err(CartNotFound);
      }
      r := Ok(Cart([], 0.0));
      carts := carts[user := r.value];
    }

    // ---------------------------------------------------------------- orders

    /**
     * `createOrder`. The guards run in order and each failure leaves the
     * store as it was: an empty or missing cart, then the first line whose
     * product is gone (a TypeError) or short of stock, then a payment that
     * did not succeed. On success the order snapshots the cart, every
     * product loses the quantity bought and the cart is emptied.
     */
    method CreateOrder(user: UserId, shippingAddress: string, payment: PaymentIntent, id: OrderId)
      returns (r: Result<Order>)
      requires Valid()
      requires id !in orders
      modifies this
      ensures Valid()
      ensures reviews == old(reviews)
      ensures r.Err? ==> products == old(products) && carts == old(carts) && orders == old(orders)
      ensures ItemsOf(old(carts), user) == [] ==> r == Err(CartEmpty)
      ensures var items := ItemsOf(old(carts), user);
              forall k :: 0 <= k < |items| && !Available(old(products), items[k])
                          && (forall j :: 0 <= j < k ==> Available(old(products), items[j])) ==>
                r == (if items[k].product in old(products) then Err(InsufficientStock(items[k].product))
                      else Err(TypeError))
      ensures var items := ItemsOf(old(carts), user);
              items != [] && (forall k :: 0 <= k < |items| ==> Available(old(products), items[k])) ==>
                && AllInCatalog(old(products), items)
                && (!payment.succeeded ==> r == Err(PaymentFailed))
                && (payment.succeeded ==>
                      && r == Ok(Order(user, Snapshot(old(products), items), shippingAddress, payment.id,
                                       PriceOrder(ItemsPrice(old(products), items)), true, Processing))
                      && orders == old(orders)[id := r.value]
                      && products == Decrement(old(products), items)
                      && carts == old(carts)[user := Cart([], 0.0)])
      ensures r.Ok? && (forall p :: p in old(products) ==> old(products)[p].stock >= 0) ==>
                forall p :: p in products ==> products[p].stock >= 0
    {
      if user !in carts || carts[user].items == [] {
        return Err(CartEmpty);
      }
      var items := carts[user].items;

      var failed := CheckStock(products, items);
      if failed.Some? {
        var item := items[failed.value];
        if item.product !in products {
          return Err(TypeError);
        }
        return Err(InsufficientStock(item.product));
      }

      var pricing := PriceOrder(ItemsPrice(products, items));
      if !payment.succeeded {
        return Err(PaymentFailed);
      }

      var order := Order(user, Snapshot(products, items), shippingAddress, payment.id, pricing, true, Processing);
      orders := orders[id := order];

      ghost var before := products;
      DecrementStock(items);
      if forall p :: p in before ==> before[p].stock >= 0 {
        DecrementKeepsStockNonNegative(before, items);
      }

      carts := carts[user := Cart([], 0.0)];
      r := Ok(order);
    }

    /**
     * `cancelOrder`: 404 for an unknown order, 403 for anyone but its owner,
     * 400 for a Shipped or Delivered order; otherwise the status becomes
     * Cancelled and every line's quantity goes back into stock. An order
     * that is already Cancelled passes the guard and is restocked again.
     */
    method CancelOrder(caller: UserId, id: OrderId) returns (r: Result<Order>)
      requires Valid()
      modifies this
      ensures Valid()
      ensures carts == old(carts) && reviews == old(reviews)
      ensures r.Err? ==> products == old(products) && orders == old(orders)
      ensures id !in old(orders) ==> r == Err(OrderNotFound)
      ensures id in old(orders) && old(orders)[id].user != caller ==> r == Err(NotAuthorized)
      ensures id in old(orders) && old(orders)[id].user == caller && !Cancellable(old(orders)[id].status) ==>
                r == Err(CannotCancel)
      ensures id in old(orders) && old(orders)[id].user == caller && Cancellable(old(orders)[id].status) ==>
                && r == Ok(old(orders)[id].(status := Cancelled))
                && orders == old(orders)[id := r.value]
                && products == Restore(old(products), Quantities(old(orders)[id].items))
    {
      if id !in orders {
        return Err(OrderNotFound);
      }
      var order := orders[id];
      if order.user != caller {
        return Err(NotAuthorized);
      }
      if order.status == Shipped || order.status == Delivered {
        return Err(CannotCancel);
      }
      order := order.(status := Cancelled);
      orders := orders[id := order];

      RestoreStock(Quantities(order.items));
      r := Ok(order);
    }

    /** The `$inc: { stock: -quantity }` loop of `createOrder`, one line at a time. */
    method DecrementStock(items: seq<CartItem>)
      modifies this
      ensures products == Decrement(old(products), items)
      ensures carts == old(carts) && orders == old(orders) && reviews == old(reviews)
    {
      DecrementNothing(products);
      var i := 0;
      while i < |items|
        invariant 0 <= i <= |items|
        invariant products == Decrement(old(products), items[..i])
        invariant carts == old(carts) && orders == old(orders) && reviews == old(reviews)
      {
        var pid := items[i].product;
        DecrementExtend(old(products), items, i);
        if pid in products {
          products := products[pid := products[pid].(stock := products[pid].stock - items[i].quantity)];
        }
        i := i + 1;
      }
      assert items[..|items|] == items;
    }

    /** The `$inc: { stock: quantity }` loop of `cancelOrder`, one line at a time. */
    method RestoreStock(items: seq<CartItem>)
      modifies this
      ensures products == Restore(old(products), items)
      ensures carts == old(carts) && orders == old(orders) && reviews == old(reviews)
    {
      RestoreNothing(products);
      var i := 0;
      while i < |items|
        invariant 0 <= i <= |items|
        invariant products == Restore(old(products), items[..i])
        invariant carts == old(carts) && orders == old(orders) && reviews == old(reviews)
      {
        var pid := items[i].product;
        RestoreExtend(old(products), items, i);
        if pid in products {
          products := products[pid := products[pid].(stock := products[pid].stock + items[i].quantity)];
        }
        i := i + 1;
      }
      assert items[..|items|] == items;
    }

    // ---------------------------------------------------------------- reviews

    /**
     * `calculateAverageRating`: write the aggregate of the product's reviews
     * into that product alone; an unknown product matches nothing.
     */
    method CalculateAverageRating(pid: ProductId)
      requires Valid()
      modifies this
      ensures Valid()
      ensures carts == old(carts) && orders == old(orders) && reviews == old(reviews)
      ensures pid !in old(products) ==> products == old(products)
      ensures pid in old(products) ==>
                products == old(products)[pid := old(products)[pid].(rating := Aggregate(reviews, pid).rating,
                                                                     numReviews := Aggregate(reviews, pid).numReviews)]
      ensures pid in products ==> 0.0 <= products[pid].rating <= MaxRating
    {
      var stats := Aggregate(reviews, pid);
      AggregateInRange(reviews, pid);
      if pid in products {
        products := products[pid := products[pid].(rating := stats.rating, numReviews := stats.numReviews)];
      }
    }

    /**
     * `createReview`: 404 for an unknown product, 403 without a paid order
     * containing it, 400 for a second review of it; a review the schema
     * rejects is not stored. The saved review recomputes the product rating.
     */
    method CreateReview(caller: UserId, pid: ProductId, rating: Option<real>, comment: Option<string>, id: ReviewId)
      returns (r: Result<Review>)
      requires Valid()
      requires forall j :: 0 <= j < |reviews| ==> reviews[j].id != id
      modifies this
      ensures Valid()
      ensures carts == old(carts) && orders == old(orders)
      ensures r.Err? ==> products == old(products) && reviews == old(reviews)
      ensures pid !in old(products) ==> r == Err(ProductNotFound)
      ensures pid in old(products) && !HasPurchased(orders, caller, pid) ==> r == Err(NotPurchased)
      ensures pid in old(products) && HasPurchased(orders, caller, pid) && HasReviewed(old(reviews), pid, caller) ==>
                r == Err(AlreadyReviewed)
      ensures pid in old(products) && HasPurchased(orders, caller, pid) && !HasReviewed(old(reviews), pid, caller) ==>
                && r == NewReview(id, pid, caller, rating, comment)
                && (r.Ok? ==>
                      && reviews == old(reviews) + [r.value]
                      && products == old(products)[pid := old(products)[pid].(rating := Aggregate(reviews, pid).rating,
                                                                           numReviews := Aggregate(reviews, pid).numReviews)])
      ensures r.Ok? ==> 1.0 <= products[pid].rating <= MaxRating
    {
      if pid !in products {
        return Err(ProductNotFound);
      }
      if !HasPurchased(orders, caller, pid) {
        return Err(NotPurchased);
      }
      if HasReviewed(reviews, pid, caller) {
        return Err(AlreadyReviewed);
      }
      r := NewReview(id, pid, caller, rating, comment);
      if r.Err? {
        return;
      }
      UniqueAfterAppend(reviews, r.value);
      reviews := reviews + [r.value];
      AggregateAfterAppend(old(reviews), r.value, pid);
      AggregateInRange(reviews, pid);
      CalculateAverageRating(pid);
    }

    /**
     * `updateReview`: 404 for an unknown review, 403 for anyone but its
     * author; absent or falsy fields keep their old values, and a result the
     * schema rejects is not saved. A successful save recomputes the rating.
     */
    method UpdateReview(caller: UserId, id: ReviewId, rating: Option<real>, comment: Option<string>)
      returns (r: Result<Review>)
      requires Valid()
      modifies this
      ensures Valid()
      ensures carts == old(carts) && orders == old(orders)
      ensures r.Err? ==> products == old(products) && reviews == old(reviews)
      ensures var k := FindReview(old(reviews), id);
              && (k == -1 ==> r == Err(ReviewNotFound))
              && (k >= 0 && old(reviews)[k].user != caller ==> r == Err(NotAuthorized))
              && (k >= 0 && old(reviews)[k].user == caller ==>
                    var merged := MergeUpdate(old(reviews)[k], rating, comment);
                    && (!ValidReview(merged) ==> r == Err(ValidationError))
                    && (ValidReview(merged) ==>
                          && r == Ok(merged)
                          && reviews == old(reviews)[k := merged]
                          && products == (if merged.product in old(products) then
                                            old(products)[merged.product := old(products)[merged.product].(
                                              rating := Aggregate(reviews, merged.product).rating,
                                              numReviews := Aggregate(reviews, merged.product).numReviews)]
                                          else old(products))))
    {
      var k := FindReview(reviews, id);
      if k == -1 {
        return Err(ReviewNotFound);
      }
      if reviews[k].user != caller {
        return Err(NotAuthorized);
      }
      var merged := MergeUpdate(reviews[k], rating, comment);
      if !ValidReview(merged) {
        return Err(ValidationError);
      }
      UniqueAfterReplace(reviews, k, merged);
      reviews := reviews[k := merged];
      CalculateAverageRating(merged.product);
      r := Ok(merged);
    }

    /**
     * `deleteReview`: 404 for an unknown review, 403 unless the caller wrote
     * it or is an admin; the review is removed and, since `deleteOne` does not
     * fire the 'remove' hook, the product's rating is left as it was.
     */
    method DeleteReview(caller: Caller, id: ReviewId) returns (r: Result<Review>)
      requires Valid()
      modifies this
      ensures Valid()
      ensures products == old(products) && carts == old(carts) && orders == old(orders)
      ensures r.Err? ==> reviews == old(reviews)
      ensures var k := FindReview(old(reviews), id);
              && (k == -1 ==> r == Err(ReviewNotFound))
              && (k >= 0 && old(reviews)[k].user != caller.id && caller.role != Admin ==> r == Err(NotAuthorized))
              && (k >= 0 && (old(reviews)[k].user == caller.id || caller.role == Admin) ==>
                    r == Ok(old(reviews)[k]) && reviews == old(reviews)[..k] + old(reviews)[k + 1..])
    {
      var k := FindReview(reviews, id);
      if k == -1 {
        return Err(ReviewNotFound);
      }
      if reviews[k].user != caller.id && caller.role != Admin {
        return Err(NotAuthorized);
      }
      r := Ok(reviews[k]);
      UniqueAfterRemove(reviews, k);
      reviews := reviews[..k] + reviews[k + 1..];
    }
  }
}
