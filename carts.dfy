/**
 * The per-user cart: a sequence of (product, quantity) entries and the
 * transformations the cart controller applies to it in place.
 */
module Carts {
  import opened Common
  import opened Catalog

  /** One entry of `cart.items`. No positivity check is made on the quantity. */
  datatype CartItem = CartItem(product: ProductId, quantity: int)

  datatype Cart = Cart(items: seq<CartItem>, totalAmount: real)

  /** The entries of the user's cart, or none when the user has no cart yet. */
  function ItemsOf(carts: map<UserId, Cart>, user: UserId): seq<CartItem>
  {
    if user in carts then carts[user].items else []
  }

  predicate InCart(items: seq<CartItem>, pid: ProductId)
  {
    exists j :: 0 <= j < |items| && items[j].product == pid
  }

  /** At most one entry per product: what the merge in `addToCart` keeps up. */
  predicate UniqueProducts(items: seq<CartItem>)
  {
    forall i, j :: 0 <= i < |items| && 0 <= j < |items| && items[i].product == items[j].product ==> i == j
  }

  /** `items.findIndex(item => item.product === pid)`: the first matching index, or -1. */
  function FindIndex(items: seq<CartItem>, pid: ProductId): (r: int)
    ensures -1 <= r < |items|
    ensures r >= 0 ==> items[r].product == pid && forall j :: 0 <= j < r ==> items[j].product != pid
    ensures r == -1 <==> !InCart(items, pid)
  {
    if items == [] then -1
    else if items[0].product == pid then 0
    else
      var k := FindIndex(items[1..], pid);
      if k == -1 then
        assert forall j :: 1 <= j < |items| ==> items[j] == items[1..][j - 1];
        -1
      else
        k + 1
  }

  /** The total quantity requested for `pid`, summed over the entries left to right. */
  function QtyOf(items: seq<CartItem>, pid: ProductId): int
  {
    if items == [] then 0
    else QtyOf(items[..|items| - 1], pid)
         + (if items[|items| - 1].product == pid then items[|items| - 1].quantity else 0)
  }

  lemma {:induction false} QtyOfAbsent(items: seq<CartItem>, pid: ProductId)
    requires !InCart(items, pid)
    ensures QtyOf(items, pid) == 0
  {
    if items != [] {
      var front := items[..|items| - 1];
      assert !InCart(front, pid) by {
        forall j | 0 <= j < |front| ensures front[j].product != pid {
          assert front[j] == items[j];
        }
      }
      QtyOfAbsent(front, pid);
    }
  }

  /** With unique entries the total for a product is the quantity of its one entry. */
  lemma {:induction false} QtyOfUnique(items: seq<CartItem>, k: nat)
    requires UniqueProducts(items)
    requires k < |items|
    ensures QtyOf(items, items[k].product) == items[k].quantity
  {
    var n := |items| - 1;
    var front := items[..n];
    assert UniqueProducts(front) by {
      forall i, j | 0 <= i < |front| && 0 <= j < |front| && front[i].product == front[j].product
        ensures i == j
      {
        assert front[i] == items[i] && front[j] == items[j];
      }
    }
    if k == n {
      assert !InCart(front, items[k].product) by {
        forall j | 0 <= j < |front| ensures front[j].product != items[k].product {
          assert front[j] == items[j];
        }
      }
      QtyOfAbsent(front, items[k].product);
    } else {
      assert front[k] == items[k];
      QtyOfUnique(front, k);
    }
  }

  lemma QtyOfAppend(items: seq<CartItem>, x: CartItem, pid: ProductId)
    ensures QtyOf(items + [x], pid) == QtyOf(items, pid) + (if x.product == pid then x.quantity else 0)
  {
    assert (items + [x])[..|items|] == items;
  }

  /** Changing the quantity of entry `k` changes the total of its product by the difference. */
  lemma {:induction false} QtyOfUpdate(items: seq<CartItem>, k: nat, q: int, pid: ProductId)
    requires k < |items|
    ensures QtyOf(items[k := items[k].(quantity := q)], pid)
         == QtyOf(items, pid) + (if items[k].product == pid then q - items[k].quantity else 0)
  {
    var n := |items| - 1;
    var updated := items[k := items[k].(quantity := q)];
    if k == n {
      assert updated[..n] == items[..n];
    } else {
      assert updated[..n] == items[..n][k := items[k].(quantity := q)];
      QtyOfUpdate(items[..n], k, q, pid);
    }
  }

  /** Dropping entry `k` removes its contribution to the total of its product. */
  lemma {:induction false} QtyOfDelete(items: seq<CartItem>, k: nat, pid: ProductId)
    requires k < |items|
    ensures QtyOf(items[..k] + items[k + 1..], pid)
         == QtyOf(items, pid) - (if items[k].product == pid then items[k].quantity else 0)
  {
    var n := |items| - 1;
    var rest := items[..k] + items[k + 1..];
    if k == n {
      assert rest == items[..n];
    } else {
      assert rest == (items[..n][..k] + items[..n][k + 1..]) + [items[n]];
      QtyOfDelete(items[..n], k, pid);
      QtyOfAppend(items[..n][..k] + items[..n][k + 1..], items[n], pid);
    }
  }

  /**
   * The cart change of `addToCart` (after its guards): add to the quantity of
   * the existing entry for `pid`, or push a new entry at the end.
   */
  function AddItem(items: seq<CartItem>, pid: ProductId, q: int): (r: seq<CartItem>)
    ensures !InCart(items, pid) ==> r == items + [CartItem(pid, q)]
    ensures InCart(items, pid) ==>
      && |r| == |items|
      && forall j :: 0 <= j < |items| ==>
           r[j].product == items[j].product
           && r[j].quantity == items[j].quantity + (if j == FindIndex(items, pid) then q else 0)
    ensures UniqueProducts(items) ==> UniqueProducts(r)
  {
    var k := FindIndex(items, pid);
    if k > -1 then items[k := items[k].(quantity := items[k].quantity + q)]
    else items + [CartItem(pid, q)]
  }

  /** Merge-or-append adds `q` to the product's total and leaves every other total alone. */
  lemma AddItemQuantities(items: seq<CartItem>, pid: ProductId, q: int, p: ProductId)
    ensures QtyOf(AddItem(items, pid, q), p) == QtyOf(items, p) + (if p == pid then q else 0)
  {
    var k := FindIndex(items, pid);
    if k > -1 {
      QtyOfUpdate(items, k, items[k].quantity + q, p);
    } else {
      QtyOfAppend(items, CartItem(pid, q), p);
    }
  }

  /** A product in the cart is never duplicated by a second `addToCart`. */
  lemma AddItemKeepsCount(items: seq<CartItem>, pid: ProductId, q: int)
    ensures |AddItem(items, pid, q)| == |items| + (if InCart(items, pid) then 0 else 1)
    ensures InCart(AddItem(items, pid, q), pid)
  {
    var r := AddItem(items, pid, q);
    if InCart(items, pid) {
      var k := FindIndex(items, pid);
      assert r[k].product == pid;
    } else {
      assert r[|items|].product == pid;
    }
  }

  /**
   * The cart change of `updateCartItem` on entry `k`: a quantity of at most 0
   * splices the entry out, any other value overwrites its quantity.
   */
  function SetQuantity(items: seq<CartItem>, k: nat, q: int): (r: seq<CartItem>)
    requires k < |items|
    ensures q <= 0 ==>
      && |r| == |items| - 1
      && (forall j :: 0 <= j < k ==> r[j] == items[j])
      && (forall j :: k <= j < |r| ==> r[j] == items[j + 1])
    ensures q > 0 ==>
      && |r| == |items|
      && r[k] == CartItem(items[k].product, q)
      && (forall j :: 0 <= j < |items| && j != k ==> r[j] == items[j])
    ensures UniqueProducts(items) ==> UniqueProducts(r)
  {
    if q <= 0 then items[..k] + items[k + 1..]
    else items[k := items[k].(quantity := q)]
  }

  /** With unique entries, the product of entry `k` ends with total `q` (0 once removed). */
  lemma SetQuantityQuantities(items: seq<CartItem>, k: nat, q: int, p: ProductId)
    requires UniqueProducts(items)
    requires k < |items|
    ensures QtyOf(SetQuantity(items, k, q), p)
         == if p == items[k].product then (if q <= 0 then 0 else q) else QtyOf(items, p)
  {
    QtyOfUnique(items, k);
    if q <= 0 {
      QtyOfDelete(items, k, p);
    } else {
      QtyOfUpdate(items, k, q, p);
    }
  }

  /** `items.filter(item => item.product !== pid)`. */
  function RemoveProduct(items: seq<CartItem>, pid: ProductId): (r: seq<CartItem>)
    ensures |r| <= |items|
    ensures forall x :: x in r ==> x in items && x.product != pid
    ensures forall x :: x in items && x.product != pid ==> x in r
    ensures !InCart(items, pid) ==> r == items
  {
    if items == [] then []
    else
      var rest := RemoveProduct(items[1..], pid);
      assert !InCart(items, pid) ==> !InCart(items[1..], pid) by {
        if !InCart(items, pid) {
          forall j | 0 <= j < |items[1..]| ensures items[1..][j].product != pid {
            assert items[1..][j] == items[j + 1];
          }
        }
      }
      assert items == [items[0]] + items[1..];
      if items[0].product == pid then rest else [items[0]] + rest
  }

  /** Filtering keeps the survivors in their original order: it distributes over concatenation. */
  lemma {:induction false} RemoveProductConcat(a: seq<CartItem>, b: seq<CartItem>, pid: ProductId)
    ensures RemoveProduct(a + b, pid) == RemoveProduct(a, pid) + RemoveProduct(b, pid)
  {
    if a != [] {
      assert (a + b)[1..] == a[1..] + b;
      RemoveProductConcat(a[1..], b, pid);
    } else {
      assert a + b == b;
    }
  }

  /** Removing drops the product's total to 0 and keeps every other total. */
  lemma {:induction false} RemoveProductQuantities(items: seq<CartItem>, pid: ProductId, p: ProductId)
    ensures QtyOf(RemoveProduct(items, pid), p) == if p == pid then 0 else QtyOf(items, p)
  {
    if items != [] {
      var n := |items| - 1;
      assert items == items[..n] + [items[n]];
      RemoveProductConcat(items[..n], [items[n]], pid);
      RemoveProductQuantities(items[..n], pid, p);
      assert RemoveProduct([items[n]], pid) == if items[n].product == pid then [] else [items[n]] by {
        assert [items[n]][1..] == [];
      }
      assert QtyOf(items, p) == QtyOf(items[..n], p) + (if items[n].product == p then items[n].quantity else 0);
      if items[n].product == pid {
        assert RemoveProduct(items, pid) == RemoveProduct(items[..n], pid);
      } else {
        QtyOfAppend(RemoveProduct(items[..n], pid), items[n], p);
      }
    }
  }

  /** Removing keeps entries unique. */
  lemma {:induction false} RemoveProductKeepsUnique(items: seq<CartItem>, pid: ProductId)
    requires UniqueProducts(items)
    ensures UniqueProducts(RemoveProduct(items, pid))
  {
    if items != [] {
      var tail := items[1..];
      assert UniqueProducts(tail) by {
        forall i, j | 0 <= i < |tail| && 0 <= j < |tail| && tail[i].product == tail[j].product
          ensures i == j
        {
          assert tail[i] == items[i + 1] && tail[j] == items[j + 1];
        }
      }
      RemoveProductKeepsUnique(tail, pid);
      var rest := RemoveProduct(tail, pid);
      if items[0].product != pid {
        var r := [items[0]] + rest;
        forall m | 0 <= m < |rest| ensures rest[m].product != items[0].product {
          assert rest[m] in tail;
          var t :| 0 <= t < |tail| && tail[t] == rest[m];
          assert items[t + 1] == rest[m];
        }
        assert forall i :: 1 <= i < |r| ==> r[i] == rest[i - 1];
      }
    }
  }

  /**
   * The total of a cart at current catalog prices. `Cart.calculateTotal` is
   * not part of this model; it is assumed to be Σ price × quantity, with a
   * line whose product has left the catalog adding nothing.
   */
  function CartTotal(products: map<ProductId, Product>, items: seq<CartItem>): (total: real)
    ensures items == [] ==> total == 0.0
    ensures ((forall p :: p in products ==> products[p].price >= 0.0)
             && (forall i :: 0 <= i < |items| ==> items[i].quantity >= 0)) ==> total >= 0.0
  {
    if items == [] then 0.0
    else
      var last := items[|items| - 1];
      CartTotal(products, items[..|items| - 1])
      + (if last.product in products then products[last.product].price * last.quantity as real else 0.0)
  }
}
