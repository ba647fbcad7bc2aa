/** The shopping cart: an ordered sequence of products with no deduplication, and its total. */
module Cart {
  import opened Catalog

  /** The sum of the item prices, defined structurally from the front of the cart.
      This is the reference definition; `CartTotal` computes the same value the
      way the storefront does, as a left fold starting at 0. */
  function Total(cart: seq<Product>): (sum: nat)
  {
    if |cart| == 0 then 0 else cart[0].price + Total(cart[1..])
  }

  /** Adding a product appends it at the end: every earlier item keeps its place,
      and an item already present is added again rather than merged. */
  function Append(cart: seq<Product>, p: Product): (r: seq<Product>)
    ensures |r| == |cart| + 1
    ensures r[..|cart|] == cart
    ensures r[|cart|] == p
    ensures multiset(r) == multiset(cart) + multiset{p}
  {
    cart + [p]
  }

  /** Adding the products `ps` one after the other, in order. */
  function AppendAll(cart: seq<Product>, ps: seq<Product>): (r: seq<Product>)
    decreases |ps|
  {
    if |ps| == 0 then cart else AppendAll(Append(cart, ps[0]), ps[1..])
  }

  /** The total of a concatenation is the sum of the totals. */
  lemma {:induction false} TotalConcat(a: seq<Product>, b: seq<Product>)
    ensures Total(a + b) == Total(a) + Total(b)
    decreases |a|
  {
    if |a| == 0 {
      assert a + b == b;
    } else {
      assert (a + b)[1..] == a[1..] + b;
      TotalConcat(a[1..], b);
    }
  }

  /** The empty cart totals 0, and adding a product raises the total by exactly its price. */
  lemma TotalAppend(cart: seq<Product>, p: Product)
    ensures Total([]) == 0
    ensures Total(Append(cart, p)) == Total(cart) + p.price
  {
    TotalConcat(cart, [p]);
  }

  /** The storefront's `reduce((sum, item) => sum + item.price, 0)`: a left fold over the cart.
      It agrees with the reference sum. */
  method CartTotal(cart: seq<Product>) returns (sum: nat)
    ensures sum == Total(cart)
  {
    sum := 0;
    var i := 0;
    while i < |cart|
      invariant 0 <= i <= |cart|
      invariant sum == Total(cart[..i])
    {
      assert cart[..i + 1] == Append(cart[..i], cart[i]);
      TotalAppend(cart[..i], cart[i]);
      sum := sum + cart[i].price;
      i := i + 1;
    }
    assert cart[..i] == cart;
  }

  /** Adding products one by one yields the cart followed by them, and adds their prices. */
  lemma {:induction false} AppendAllSpec(cart: seq<Product>, ps: seq<Product>)
    ensures AppendAll(cart, ps) == cart + ps
    ensures |AppendAll(cart, ps)| == |cart| + |ps|
    ensures Total(AppendAll(cart, ps)) == Total(cart) + Total(ps)
    decreases |ps|
  {
    if |ps| == 0 {
      assert cart + ps == cart;
    } else {
      AppendAllSpec(Append(cart, ps[0]), ps[1..]);
      assert Append(cart, ps[0]) + ps[1..] == cart + ps;
    }
    TotalConcat(cart, ps);
  }

  /** The total depends only on which items are in the cart, not on their order. */
  lemma {:induction false} TotalPermutation(a: seq<Product>, b: seq<Product>)
    requires multiset(a) == multiset(b)
    ensures Total(a) == Total(b)
    decreases |a|
  {
    if |a| == 0 {
      assert |b| == |multiset(b)| == 0;
    } else {
      var x := a[0];
      assert x in multiset(b);
      var k :| 0 <= k < |b| && b[k] == x;
      var rest := b[..k] + b[k + 1..];
      assert b == b[..k] + [x] + b[k + 1..];
      TotalConcat(b[..k] + [x], b[k + 1..]);
      TotalConcat(b[..k], [x]);
      TotalConcat(b[..k], b[k + 1..]);
      assert a == [x] + a[1..];
      assert multiset(a[1..]) == multiset(a) - multiset{x};
      assert multiset(rest) == multiset(b) - multiset{x};
      TotalPermutation(a[1..], rest);
    }
  }

  /** For a cart of catalogue items the total is fixed by how many of each jacket it holds. */
  lemma {:induction false} TotalByCounts(cart: seq<Product>)
    requires AllFromCatalogue(cart)
    ensures Total(cart) == 120 * multiset(cart)[BlackPuffer]
                         + 110 * multiset(cart)[NavyPuffer]
                         + 130 * multiset(cart)[RedPuffer]
    decreases |cart|
  {
    if |cart| > 0 {
      assert cart == [cart[0]] + cart[1..];
      assert multiset(cart) == multiset{cart[0]} + multiset(cart[1..]);
      assert AllFromCatalogue(cart[1..]) by {
        forall i | 0 <= i < |cart[1..]| ensures cart[1..][i] in Products {
          assert cart[1..][i] == cart[i + 1];
        }
      }
      TotalByCounts(cart[1..]);
    }
  }

  /** A cart of catalogue items costs between 110 and 130 per item. */
  lemma {:induction false} TotalBounds(cart: seq<Product>)
    requires AllFromCatalogue(cart)
    ensures 110 * |cart| <= Total(cart) <= 130 * |cart|
    decreases |cart|
  {
    if |cart| > 0 {
      PriceRange(cart[0]);
      assert AllFromCatalogue(cart[1..]) by {
        forall i | 0 <= i < |cart[1..]| ensures cart[1..][i] in Products {
          assert cart[1..][i] == cart[i + 1];
        }
      }
      TotalBounds(cart[1..]);
    }
  }
}
