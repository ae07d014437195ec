/** Catalogue records of `store/models.py`: Product and its per-size stock rows.
    Prices are exact decimals (`real`), as Django's DecimalField keeps them. */
module Catalog {
  import opened Base

  /** A ProductSize row: one size of a product and its own stock count. */
  datatype ProductSize = ProductSize(size: string, stockQuantity: nat)

  /** A Product row together with its `sizes` (ordered by size, unique per product). */
  datatype Product = Product(
    id: nat,
    name: string,
    slug: string,
    price: real,
    discountPrice: Option<real>,
    isActive: bool,
    stockQuantity: nat,
    sizes: seq<ProductSize>)

  /** The product table in query order; primary keys are unique. */
  predicate UniqueIds(catalogue: seq<Product>)
  {
    forall i, j :: 0 <= i < j < |catalogue| ==> catalogue[i].id != catalogue[j].id
  }

  /** `Product.objects.filter(id=productId).first()`. */
  function FindProduct(catalogue: seq<Product>, productId: nat): (r: Option<Product>)
    ensures r.Some? ==> r.value in catalogue && r.value.id == productId
    ensures r.None? ==> forall p :: p in catalogue ==> p.id != productId
  {
    if catalogue == [] then None
    else if catalogue[0].id == productId then Some(catalogue[0])
    else FindProduct(catalogue[1..], productId)
  }

  /** With unique primary keys, the row found is the only one with the id. */
  lemma FindProductUnique(catalogue: seq<Product>, productId: nat)
    ensures UniqueIds(catalogue) && FindProduct(catalogue, productId).Some? ==>
      forall p :: p in catalogue && p.id == productId ==> p == FindProduct(catalogue, productId).value
  {
    if !UniqueIds(catalogue) || catalogue == [] {
    } else if catalogue[0].id != productId {
      assert UniqueIds(catalogue[1..]) by {
        forall i, j | 0 <= i < j < |catalogue[1..]| ensures catalogue[1..][i].id != catalogue[1..][j].id {
          assert catalogue[1..][i] == catalogue[i + 1] && catalogue[1..][j] == catalogue[j + 1];
        }
      }
      FindProductUnique(catalogue[1..], productId);
    } else {
      forall p | p in catalogue && p.id == productId ensures p == catalogue[0] {
        var k :| 0 <= k < |catalogue| && catalogue[k] == p;
      }
    }
  }

  /** `product.sizes.filter(size=size).first()`. */
  function FindSize(sizes: seq<ProductSize>, size: string): (r: Option<ProductSize>)
    ensures r.Some? ==> r.value in sizes && r.value.size == size
    ensures r.None? ==> forall s :: s in sizes ==> s.size != size
  {
    if sizes == [] then None
    else if sizes[0].size == size then Some(sizes[0])
    else FindSize(sizes[1..], size)
  }

  /** `product.discount_price or product.price`: the price a cart line snapshots.
      A discount price of zero is falsy, so the list price is used then. */
  function EffectivePrice(p: Product): real
  {
    if TruthyDecimal(p.discountPrice) then p.discountPrice.value else p.price
  }

  /** `Product.is_in_stock`. */
  predicate IsInStock(p: Product)
  {
    p.stockQuantity > 0
  }

  /** Python's `int(x)` on a decimal: truncation toward zero. */
  function TruncateTowardZero(x: real): (r: int)
    ensures x >= 0.0 ==> r as real <= x < r as real + 1.0
    ensures x < 0.0 ==> r as real - 1.0 < x <= r as real
  {
    if x >= 0.0 then x.Floor else -((-x).Floor)
  }

  /** `Product.get_discount_percentage`. */
  function DiscountPercentage(p: Product): (r: int)
    ensures !TruthyDecimal(p.discountPrice) || p.price <= 0.0 ==> r == 0
    ensures TruthyDecimal(p.discountPrice) && 0.0 < p.discountPrice.value <= p.price ==> 0 <= r < 100
    ensures TruthyDecimal(p.discountPrice) && p.price > 0.0 && p.discountPrice.value > p.price ==> r <= 0
  {
    if TruthyDecimal(p.discountPrice) && p.price > 0.0 then
      var d := p.discountPrice.value;
      DiscountRatioBounds(p.price, d);
      TruncateTowardZero((p.price - d) / p.price * 100.0)
    else
      0
  }

  lemma DiscountRatioBounds(price: real, d: real)
    requires price > 0.0
    ensures d <= price ==> 0.0 <= (price - d) / price * 100.0
    ensures 0.0 <= d ==> (price - d) / price * 100.0 <= 100.0
    ensures 0.0 < d ==> (price - d) / price * 100.0 < 100.0
    ensures d > price ==> (price - d) / price * 100.0 < 0.0
  {
    var q := (price - d) / price;
    assert q * price == price - d;
  }

  /** The percentage is the saved share truncated toward zero: for a discount
      up to the price, `r` percent of the price is at most the saving and
      `r + 1` percent is more than it; for a discount above the price the
      saving is negative, and `r` percent of the price is at least it while
      `r - 1` percent is less, so the value is rounded up, not down. */
  lemma DiscountPercentageIsWholePart(p: Product)
    requires TruthyDecimal(p.discountPrice) && p.price > 0.0
    ensures var r := DiscountPercentage(p);
      p.discountPrice.value <= p.price ==>
        r as real * p.price <= (p.price - p.discountPrice.value) * 100.0 < (r as real + 1.0) * p.price
    ensures var r := DiscountPercentage(p);
      p.discountPrice.value > p.price ==>
        (r as real - 1.0) * p.price < (p.price - p.discountPrice.value) * 100.0 <= r as real * p.price
  {
    if p.discountPrice.value <= p.price {
      WholePart(p.price, p.discountPrice.value);
    } else {
      WholePartAbove(p.price, p.discountPrice.value);
    }
  }

  /** A price of 3 with a discount price of 4 saves -33.3 percent, which
      `int` makes -33 where a floor would give -34. */
  lemma DiscountAboveRoundsTowardZero()
    ensures DiscountPercentage(Product(1, "p", "p", 3.0, Some(4.0), true, 1, [])) == -33
  {
    var p := Product(1, "p", "p", 3.0, Some(4.0), true, 1, []);
    DiscountPercentageIsWholePart(p);
  }

  lemma WholePart(price: real, d: real)
    requires price > 0.0 && d <= price
    ensures var r := TruncateTowardZero((price - d) / price * 100.0);
      r as real * price <= (price - d) * 100.0 < (r as real + 1.0) * price
  {
    var x := (price - d) / price * 100.0;
    var r := TruncateTowardZero(x);
    DiscountRatioBounds(price, d);
    assert r as real <= x < r as real + 1.0;
    ScaledRatio(price, d, x);
    Bracket(r as real, x, price, (price - d) * 100.0);
  }

  lemma WholePartAbove(price: real, d: real)
    requires price > 0.0 && d > price
    ensures var r := TruncateTowardZero((price - d) / price * 100.0);
      (r as real - 1.0) * price < (price - d) * 100.0 <= r as real * price
  {
    var x := (price - d) / price * 100.0;
    var r := TruncateTowardZero(x);
    DiscountRatioBounds(price, d);
    assert r as real - 1.0 < x <= r as real;
    ScaledRatio(price, d, x);
    BracketBelow(r as real, x, price, (price - d) * 100.0);
  }

  /** From `a <= x < a + 1` and `s == x * c` with `c` positive: `s` lies between `a * c` and `(a + 1) * c`. */
  lemma Bracket(a: real, x: real, c: real, s: real)
    requires a <= x < a + 1.0 && c > 0.0 && x * c == s
    ensures a * c <= s < (a + 1.0) * c
  {
    MulMonotone(a, x, c);
    var b := a + 1.0;
    MulStrict(x, b, c);
    assert s < b * c;
  }

  /** From `a - 1 < x <= a` and `s == x * c` with `c` positive: `s` lies above `(a - 1) * c` and at most at `a * c`. */
  lemma BracketBelow(a: real, x: real, c: real, s: real)
    requires a - 1.0 < x <= a && c > 0.0 && x * c == s
    ensures (a - 1.0) * c < s <= a * c
  {
    MulMonotone(x, a, c);
    var b := a - 1.0;
    MulStrict(b, x, c);
    assert b * c < s;
  }

  lemma ScaledRatio(price: real, d: real, x: real)
    requires price > 0.0 && x == (price - d) / price * 100.0
    ensures x * price == (price - d) * 100.0
  {
    var q := (price - d) / price;
    assert q * price == price - d;
    assert x * price == q * price * 100.0;
  }

  lemma MulMonotone(a: real, b: real, c: real)
    requires a <= b && c > 0.0
    ensures a * c <= b * c
  {
    assert (b - a) * c >= 0.0;
  }

  lemma MulStrict(a: real, b: real, c: real)
    requires a < b && c > 0.0
    ensures a * c < b * c
  {
    var d := b - a;
    assert d * c > 0.0;
    assert b * c == a * c + d * c;
  }
}
