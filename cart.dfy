/** The session cart of `store/cart_utils.py`. The session holds a dictionary
    from line keys `"<product id>_<size or 'no_size'>"` to lines; Python keeps
    its insertion order, so it is modelled as a sequence of entries with
    distinct keys. Quantities are unconstrained integers: nothing in the cart
    keeps them positive. */
module ShoppingCart {
  import opened Base
  import opened Text
  import opened Catalog

  /** One line: quantity, price snapshot, the size as first given, the product. */
  datatype Line = Line(quantity: int, price: real, size: Option<string>, productId: nat)

  datatype Entry = Entry(key: string, line: Line)

  /** A line joined to its product, as iterating the cart yields it. */
  datatype CartItem = CartItem(key: string, line: Line, product: Product)

  // ---------------------------------------------------------------- keys

  /** `size or 'no_size'`. */
  function SizeKey(size: Option<string>): string
  {
    if TruthyString(size) then size.value else "no_size"
  }

  /** `f"{product_id}_{size_key}"`. */
  function CartKey(productId: nat, size: Option<string>): string
  {
    NatToString(productId) + "_" + SizeKey(size)
  }

  /** A digit string ends at the first underscore, so it can be split off. */
  lemma {:induction false} SplitAtUnderscore(x: string, u: string, y: string, v: string)
    requires AllDigits(x) && AllDigits(y)
    requires x + "_" + u == y + "_" + v
    ensures x == y && u == v
  {
    var s := x + "_" + u;
    if |x| < |y| {
      UnderscoreBeforeDigit(x, u, y, v);
      assert false;
    } else if |y| < |x| {
      UnderscoreBeforeDigit(y, v, x, u);
      assert false;
    }
    assert x == s[..|x|] == y;
    assert u == s[|x| + 1..] == v;
  }

  lemma UnderscoreBeforeDigit(x: string, u: string, y: string, v: string)
    requires AllDigits(y) && |x| < |y|
    ensures x + "_" + u != y + "_" + v
  {
    assert (x + "_" + u)[|x|] == '_';
    assert (y + "_" + v)[|x|] == y[|x|];
  }

  /** The key determines the product and the size key, and conversely; so one
      (product, size key) pair has exactly one line. */
  lemma CartKeyInjective(a: nat, s: Option<string>, b: nat, t: Option<string>)
    ensures CartKey(a, s) == CartKey(b, t) <==> a == b && SizeKey(s) == SizeKey(t)
  {
    if CartKey(a, s) == CartKey(b, t) {
      SplitAtUnderscore(NatToString(a), SizeKey(s), NatToString(b), SizeKey(t));
      NatToStringInjective(a, b);
    }
  }

  /** No size, the empty size and a size literally named "no_size" share one line. */
  lemma UnsizedKeysCoincide(productId: nat)
    ensures CartKey(productId, None) == CartKey(productId, Some(""))
    ensures CartKey(productId, None) == CartKey(productId, Some("no_size"))
    ensures forall s :: s != "" && s != "no_size" ==> CartKey(productId, Some(s)) != CartKey(productId, None)
  {
    forall s | s != "" && s != "no_size"
      ensures CartKey(productId, Some(s)) != CartKey(productId, None)
    {
      CartKeyInjective(productId, Some(s), productId, None);
    }
  }

  // ---------------------------------------------------------------- lookup

  predicate DistinctKeys(entries: seq<Entry>)
  {
    forall i, j :: 0 <= i < j < |entries| ==> entries[i].key != entries[j].key
  }

  /** Position of `key` (the last one; with distinct keys, the only one). */
  function Find(entries: seq<Entry>, key: string): (r: Option<nat>)
    ensures r.Some? ==> r.value < |entries| && entries[r.value].key == key
    ensures r.None? ==> forall i :: 0 <= i < |entries| ==> entries[i].key != key
  {
    if entries == [] then None
    else if entries[|entries| - 1].key == key then Some(|entries| - 1)
    else Find(entries[..|entries| - 1], key)
  }

  lemma FindUnique(entries: seq<Entry>, i: nat)
    requires DistinctKeys(entries) && i < |entries|
    ensures Find(entries, entries[i].key) == Some(i)
  {
  }

  /** `self.cart.get(key)`. */
  function Lookup(entries: seq<Entry>, key: string): Option<Line>
  {
    match Find(entries, key)
    case None => None
    case Some(i) => Some(entries[i].line)
  }

  /** Replacing the line at `i` (same key) changes only that key's line. */
  lemma LookupAfterUpdate(entries: seq<Entry>, i: nat, l: Line)
    requires DistinctKeys(entries) && i < |entries|
    ensures DistinctKeys(entries[i := Entry(entries[i].key, l)])
    ensures var e' := entries[i := Entry(entries[i].key, l)];
      forall k :: Lookup(e', k) == (if k == entries[i].key then Some(l) else Lookup(entries, k))
  {
    var e' := entries[i := Entry(entries[i].key, l)];
    forall k ensures Lookup(e', k) == if k == entries[i].key then Some(l) else Lookup(entries, k) {
      if k == entries[i].key {
        FindUnique(e', i);
      } else if Find(entries, k).Some? {
        FindUnique(e', Find(entries, k).value);
      }
    }
  }

  /** Appending a fresh key adds just that key. */
  lemma LookupAfterAppend(entries: seq<Entry>, x: Entry)
    requires DistinctKeys(entries) && Find(entries, x.key).None?
    ensures DistinctKeys(entries + [x])
    ensures forall k :: Lookup(entries + [x], k) == (if k == x.key then Some(x.line) else Lookup(entries, k))
  {
    var e' := entries + [x];
    forall k ensures Lookup(e', k) == if k == x.key then Some(x.line) else Lookup(entries, k) {
      if k != x.key && Find(entries, k).Some? {
        FindUnique(e', Find(entries, k).value);
      }
    }
  }

  // ---------------------------------------------------------------- sums

  /** `__len__`: the sum of all line quantities. */
  function QuantitySum(entries: seq<Entry>): int
  {
    if entries == [] then 0
    else QuantitySum(entries[..|entries| - 1]) + entries[|entries| - 1].line.quantity
  }

  function LineTotal(l: Line): real
  {
    l.price * l.quantity as real
  }

  /** `get_total_price`: the sum of snapshot price times quantity. */
  function PriceTotal(entries: seq<Entry>): real
  {
    if entries == [] then 0.0
    else PriceTotal(entries[..|entries| - 1]) + LineTotal(entries[|entries| - 1].line)
  }

  lemma {:induction false} SumsAfterUpdate(entries: seq<Entry>, i: nat, x: Entry)
    requires i < |entries|
    ensures QuantitySum(entries[i := x]) == QuantitySum(entries) - entries[i].line.quantity + x.line.quantity
    ensures PriceTotal(entries[i := x]) == PriceTotal(entries) - LineTotal(entries[i].line) + LineTotal(x.line)
  {
    var n := |entries|;
    var e' := entries[i := x];
    if i == n - 1 {
      assert e'[..n - 1] == entries[..n - 1];
    } else {
      assert e'[..n - 1] == entries[..n - 1][i := x];
      SumsAfterUpdate(entries[..n - 1], i, x);
    }
  }

  lemma {:induction false} QuantitySumConcat(a: seq<Entry>, b: seq<Entry>)
    ensures QuantitySum(a + b) == QuantitySum(a) + QuantitySum(b)
  {
    if b == [] {
      assert a + b == a;
    } else {
      var n := |b|;
      assert (a + b)[..|a + b| - 1] == a + b[..n - 1];
      QuantitySumConcat(a, b[..n - 1]);
    }
  }

  lemma {:induction false} PriceTotalConcat(a: seq<Entry>, b: seq<Entry>)
    ensures PriceTotal(a + b) == PriceTotal(a) + PriceTotal(b)
  {
    if b == [] {
      assert a + b == a;
    } else {
      var n := |b|;
      assert (a + b)[..|a + b| - 1] == a + b[..n - 1];
      PriceTotalConcat(a, b[..n - 1]);
    }
  }

  // ---------------------------------------------------------------- add

  /** The line a first `add` creates: quantity 0 and the current effective price. */
  function NewLine(p: Product, size: Option<string>): Line
  {
    Line(0, EffectivePrice(p), size, p.id)
  }

  function Bumped(l: Line, quantity: int, updateQuantity: bool): Line
  {
    l.(quantity := if updateQuantity then quantity else l.quantity + quantity)
  }

  /** The entries after `Cart.add(product, quantity, size, update_quantity)`. */
  function Added(entries: seq<Entry>, p: Product, quantity: int, size: Option<string>, updateQuantity: bool): seq<Entry>
  {
    var key := CartKey(p.id, size);
    var base := if Find(entries, key).None? then entries + [Entry(key, NewLine(p, size))] else entries;
    var i := if Find(entries, key).None? then |entries| else Find(entries, key).value;
    base[i := Entry(key, Bumped(base[i].line, quantity, updateQuantity))]
  }

  /** What one `add` does to the line it targets: a new line snapshots the
      effective price and the given size; an existing one keeps both and only
      its quantity is replaced or incremented. Every other line is unchanged. */
  lemma AddedLines(entries: seq<Entry>, p: Product, quantity: int, size: Option<string>, updateQuantity: bool)
    requires DistinctKeys(entries)
    ensures var r := Added(entries, p, quantity, size, updateQuantity);
      var key := CartKey(p.id, size);
      && DistinctKeys(r)
      && Lookup(r, key) == Some(
           match Lookup(entries, key)
           case None => Line(quantity, EffectivePrice(p), size, p.id)
           case Some(old_) => old_.(quantity := if updateQuantity then quantity else old_.quantity + quantity))
      && (forall k :: k != key ==> Lookup(r, k) == Lookup(entries, k))
      && |r| == |entries| + (if Lookup(entries, key).None? then 1 else 0)
      && (forall j :: 0 <= j < |entries| ==> r[j].key == entries[j].key)
  {
    var key := CartKey(p.id, size);
    if Find(entries, key).None? {
      var base := entries + [Entry(key, NewLine(p, size))];
      LookupAfterAppend(entries, Entry(key, NewLine(p, size)));
      LookupAfterUpdate(base, |entries|, Bumped(base[|entries|].line, quantity, updateQuantity));
    } else {
      LookupAfterUpdate(entries, Find(entries, key).value, Bumped(entries[Find(entries, key).value].line, quantity, updateQuantity));
    }
  }

  lemma AddedKeysDistinct(entries: seq<Entry>, p: Product, quantity: int, size: Option<string>, updateQuantity: bool)
    requires DistinctKeys(entries)
    ensures DistinctKeys(Added(entries, p, quantity, size, updateQuantity))
  {
    AddedLines(entries, p, quantity, size, updateQuantity);
  }

  /** `len(cart)` after an add: the targeted quantity is replaced or increased,
      so the count moves by exactly that difference. */
  lemma QuantityAfterAdd(entries: seq<Entry>, p: Product, quantity: int, size: Option<string>, updateQuantity: bool)
    ensures var key := CartKey(p.id, size);
      var before := match Lookup(entries, key) case None => 0 case Some(l) => l.quantity;
      QuantitySum(Added(entries, p, quantity, size, updateQuantity)) ==
        QuantitySum(entries) + (if updateQuantity then quantity - before else quantity)
  {
    var key := CartKey(p.id, size);
    if Find(entries, key).None? {
      var base := entries + [Entry(key, NewLine(p, size))];
      assert base[..|base| - 1] == entries;
      SumsAfterUpdate(base, |entries|, Entry(key, Bumped(base[|entries|].line, quantity, updateQuantity)));
    } else {
      var i := Find(entries, key).value;
      SumsAfterUpdate(entries, i, Entry(key, Bumped(entries[i].line, quantity, updateQuantity)));
    }
  }

  /** The cart total after an add uses the line's snapshot price, which for an
      existing line is the price of its first add, not the product's price now. */
  lemma TotalAfterAdd(entries: seq<Entry>, p: Product, quantity: int, size: Option<string>, updateQuantity: bool)
    ensures var key := CartKey(p.id, size);
      var before := match Lookup(entries, key) case None => NewLine(p, size) case Some(l) => l;
      PriceTotal(Added(entries, p, quantity, size, updateQuantity)) ==
        PriceTotal(entries) - LineTotal(before) + LineTotal(Bumped(before, quantity, updateQuantity))
  {
    var key := CartKey(p.id, size);
    if Find(entries, key).None? {
      var base := entries + [Entry(key, NewLine(p, size))];
      assert base[..|base| - 1] == entries;
      assert LineTotal(NewLine(p, size)) == 0.0;
      SumsAfterUpdate(base, |entries|, Entry(key, Bumped(base[|entries|].line, quantity, updateQuantity)));
    } else {
      var i := Find(entries, key).value;
      SumsAfterUpdate(entries, i, Entry(key, Bumped(entries[i].line, quantity, updateQuantity)));
    }
  }

  // ---------------------------------------------------------------- remove

  /** The entries after `del self.cart[key]` (no change when the key is absent). */
  function Removed(entries: seq<Entry>, key: string): seq<Entry>
  {
    match Find(entries, key)
    case None => entries
    case Some(i) => entries[..i] + entries[i + 1..]
  }

  /** `remove` drops exactly the matching line and leaves every other line as it was. */
  lemma RemovedLines(entries: seq<Entry>, key: string)
    requires DistinctKeys(entries)
    ensures var r := Removed(entries, key);
      && DistinctKeys(r)
      && Lookup(r, key) == None
      && (forall k :: k != key ==> Lookup(r, k) == Lookup(entries, k))
      && (Lookup(entries, key) == None ==> r == entries)
      && QuantitySum(r) == QuantitySum(entries) - (match Lookup(entries, key) case None => 0 case Some(l) => l.quantity)
  {
    if Find(entries, key).Some? {
      var i := Find(entries, key).value;
      DeletedAt(entries, i);
    }
  }

  lemma DeletedAt(entries: seq<Entry>, i: nat)
    requires DistinctKeys(entries) && i < |entries|
    ensures var r := entries[..i] + entries[i + 1..];
      && DistinctKeys(r)
      && Find(r, entries[i].key) == None
      && (forall k :: k != entries[i].key ==> Lookup(r, k) == Lookup(entries, k))
      && QuantitySum(r) == QuantitySum(entries) - entries[i].line.quantity
  {
    DeletedKeys(entries, i);
    DeletedLookups(entries, i);
    DeletedSum(entries, i);
  }

  /** The positions of the remaining lines: those before `i` stay, those after move down by one. */
  lemma DeletedIndex(entries: seq<Entry>, i: nat)
    requires i < |entries|
    ensures var r := entries[..i] + entries[i + 1..];
      && |r| == |entries| - 1
      && forall j :: 0 <= j < |r| ==> r[j] == if j < i then entries[j] else entries[j + 1]
  {
  }

  lemma DeletedKeys(entries: seq<Entry>, i: nat)
    requires DistinctKeys(entries) && i < |entries|
    ensures var r := entries[..i] + entries[i + 1..];
      DistinctKeys(r) && Find(r, entries[i].key) == None
  {
    DeletedIndex(entries, i);
  }

  lemma DeletedLookups(entries: seq<Entry>, i: nat)
    requires DistinctKeys(entries) && i < |entries|
    ensures var r := entries[..i] + entries[i + 1..];
      forall k :: k != entries[i].key ==> Lookup(r, k) == Lookup(entries, k)
  {
    var r := entries[..i] + entries[i + 1..];
    DeletedIndex(entries, i);
    DeletedKeys(entries, i);
    forall k | k != entries[i].key ensures Lookup(r, k) == Lookup(entries, k) {
      if Find(entries, k).Some? {
        var j := Find(entries, k).value;
        FindUnique(r, if j < i then j else j - 1);
      }
    }
  }

  lemma DeletedSum(entries: seq<Entry>, i: nat)
    requires i < |entries|
    ensures QuantitySum(entries[..i] + entries[i + 1..]) == QuantitySum(entries) - entries[i].line.quantity
  {
    SplitAt(entries, i);
    QuantitySumAround(entries[..i], entries[i], entries[i + 1..]);
  }

  lemma SplitLast(entries: seq<Entry>)
    requires entries != []
    ensures entries == entries[..|entries| - 1] + [entries[|entries| - 1]]
  {
  }

  lemma SplitAt(entries: seq<Entry>, i: nat)
    requires i < |entries|
    ensures entries == entries[..i] + [entries[i]] + entries[i + 1..]
  {
    assert entries[i..] == [entries[i]] + entries[i + 1..];
  }

  lemma QuantitySumAround(a: seq<Entry>, e: Entry, b: seq<Entry>)
    ensures QuantitySum(a + [e] + b) == QuantitySum(a) + e.line.quantity + QuantitySum(b)
    ensures QuantitySum(a + b) == QuantitySum(a) + QuantitySum(b)
  {
    QuantitySumConcat(a + [e], b);
    QuantitySumConcat(a, [e]);
    QuantitySumConcat(a, b);
    assert [e][..0] == [];
  }

  // ---------------------------------------------------------------- update_cart

  /** `store/views.py` update_cart: `cart.cart[key]['quantity'] = quantity` when
      the key is present; nothing otherwise. */
  function QuantitySet(entries: seq<Entry>, key: string, quantity: int): seq<Entry>
  {
    match Find(entries, key)
    case None => entries
    case Some(i) => entries[i := Entry(key, entries[i].line.(quantity := quantity))]
  }

  /** The update touches only the quantity of the line under `key`, and only
      when that line exists; keys stay distinct. */
  lemma QuantitySetLines(entries: seq<Entry>, key: string, quantity: int)
    requires DistinctKeys(entries)
    ensures var r := QuantitySet(entries, key, quantity);
      && DistinctKeys(r)
      && Lookup(r, key) == (match Lookup(entries, key) case None => None case Some(l) => Some(l.(quantity := quantity)))
      && (forall k :: k != key ==> Lookup(r, k) == Lookup(entries, k))
  {
    match Find(entries, key) {
      case None =>
      case Some(i) =>
        LookupAfterUpdate(entries, i, entries[i].line.(quantity := quantity));
    }
  }

  /** Updating a present line is an `add` with `update_quantity=True`; an absent
      key leaves the cart as it was (an `add` would have created the line). */
  lemma QuantitySetIsReplacingAdd(entries: seq<Entry>, p: Product, size: Option<string>, quantity: int)
    ensures var key := CartKey(p.id, size);
      && (Find(entries, key).Some? ==> QuantitySet(entries, key, quantity) == Added(entries, p, quantity, size, true))
      && (Find(entries, key).None? ==> QuantitySet(entries, key, quantity) == entries)
      && (Find(entries, key).None? ==> Added(entries, p, quantity, size, true) != entries)
  {
    var key := CartKey(p.id, size);
    if Find(entries, key).None? {
      assert |Added(entries, p, quantity, size, true)| == |entries| + 1;
    }
  }

  // ---------------------------------------------------------------- iteration

  /** `[item['product_id'] for item in self.cart.values()]`. */
  function ProductIds(entries: seq<Entry>): (ids: seq<nat>)
    ensures |ids| == |entries| && forall i :: 0 <= i < |entries| ==> ids[i] == entries[i].line.productId
  {
    if entries == [] then [] else ProductIds(entries[..|entries| - 1]) + [entries[|entries| - 1].line.productId]
  }

  /** `Product.objects.filter(id__in=ids)`, in the table's query order. */
  function Queried(catalogue: seq<Product>, ids: seq<nat>): seq<Product>
  {
    if catalogue == [] then []
    else Queried(catalogue[..|catalogue| - 1], ids)
         + (if catalogue[|catalogue| - 1].id in ids then [catalogue[|catalogue| - 1]] else [])
  }

  /** The lines of one product, in cart order, with the product attached. */
  function Matching(p: Product, entries: seq<Entry>): seq<CartItem>
  {
    if entries == [] then []
    else
      var last := entries[|entries| - 1];
      Matching(p, entries[..|entries| - 1]) + (if last.line.productId == p.id then [CartItem(last.key, last.line, p)] else [])
  }

  /** `__iter__`: for each product in turn, every line of that product. */
  function Joined(products: seq<Product>, entries: seq<Entry>): seq<CartItem>
  {
    if products == [] then []
    else Joined(products[..|products| - 1], entries) + Matching(products[|products| - 1], entries)
  }

  lemma {:induction false} MatchingNone(p: Product, entries: seq<Entry>)
    requires p.id !in ProductIds(entries)
    ensures Matching(p, entries) == []
  {
    if entries != [] {
      var n := |entries|;
      assert ProductIds(entries[..n - 1]) == ProductIds(entries)[..n - 1];
      MatchingNone(p, entries[..n - 1]);
    }
  }

  /** Restricting the query to the cart's product ids drops exactly the
      products that have no line. */
  lemma {:induction false} QueriedJoin(catalogue: seq<Product>, entries: seq<Entry>)
    ensures Joined(Queried(catalogue, ProductIds(entries)), entries) == Joined(catalogue, entries)
  {
    if catalogue != [] {
      var n := |catalogue|;
      var last := catalogue[n - 1];
      var q := Queried(catalogue[..n - 1], ProductIds(entries));
      QueriedJoin(catalogue[..n - 1], entries);
      if last.id in ProductIds(entries) {
        assert (q + [last])[..|q|] == q;
      } else {
        MatchingNone(last, entries);
        assert Queried(catalogue, ProductIds(entries)) == q;
        assert Joined(catalogue, entries) == Joined(catalogue[..n - 1], entries) + [];
      }
    }
  }

  /** The lines whose product still exists. */
  function Present(catalogue: seq<Product>, entries: seq<Entry>): seq<Entry>
  {
    if entries == [] then []
    else
      var last := entries[|entries| - 1];
      Present(catalogue, entries[..|entries| - 1])
      + (if FindProduct(catalogue, last.line.productId).Some? then [last] else [])
  }

  /** Every yielded item is a line of the cart with its own product attached. */
  lemma {:induction false} JoinedSound(products: seq<Product>, entries: seq<Entry>)
    ensures forall k :: 0 <= k < |Joined(products, entries)| ==>
      var it := Joined(products, entries)[k];
      it.product in products && it.product.id == it.line.productId && Entry(it.key, it.line) in entries
  {
    if products != [] {
      var n := |products|;
      JoinedSound(products[..n - 1], entries);
      MatchingSound(products[n - 1], entries);
    }
  }

  lemma {:induction false} MatchingSound(p: Product, entries: seq<Entry>)
    ensures forall k :: 0 <= k < |Matching(p, entries)| ==>
      var it := Matching(p, entries)[k];
      it.product == p && it.product.id == it.line.productId && Entry(it.key, it.line) in entries
  {
    if entries != [] {
      MatchingSound(p, entries[..|entries| - 1]);
    }
  }

  lemma {:induction false} MatchingComplete(p: Product, entries: seq<Entry>, i: nat)
    requires i < |entries| && entries[i].line.productId == p.id
    ensures CartItem(entries[i].key, entries[i].line, p) in Matching(p, entries)
  {
    var n := |entries|;
    if i < n - 1 {
      MatchingComplete(p, entries[..n - 1], i);
    }
  }

  /** Every line whose product exists is yielded, with that product. */
  lemma {:induction false} JoinedComplete(products: seq<Product>, entries: seq<Entry>, i: nat, p: Product)
    requires i < |entries| && p in products && p.id == entries[i].line.productId
    ensures CartItem(entries[i].key, entries[i].line, p) in Joined(products, entries)
  {
    var n := |products|;
    if products[n - 1] == p {
      MatchingComplete(p, entries, i);
    } else {
      JoinedComplete(products[..n - 1], entries, i, p);
    }
  }

  /** Number of products with a given id. */
  function CountId(products: seq<Product>, id: nat): nat
  {
    if products == [] then 0
    else CountId(products[..|products| - 1], id) + (if products[|products| - 1].id == id then 1 else 0)
  }

  lemma {:induction false} CountIdUnique(catalogue: seq<Product>, id: nat)
    requires UniqueIds(catalogue)
    ensures CountId(catalogue, id) == if FindProduct(catalogue, id).Some? then 1 else 0
  {
    if catalogue != [] {
      var n := |catalogue|;
      var prefix := catalogue[..n - 1];
      CountIdUnique(prefix, id);
      if catalogue[n - 1].id == id {
        assert forall p :: p in prefix ==> p.id != id;
      } else {
        assert FindProduct(prefix, id).Some? <==> FindProduct(catalogue, id).Some? by {
          if FindProduct(catalogue, id).Some? {
            var p := FindProduct(catalogue, id).value;
            assert p in prefix;
            assert FindProduct(prefix, id).Some?;
          }
        }
      }
    }
  }

  function ItemsTotal(items: seq<CartItem>): real
  {
    if items == [] then 0.0 else ItemsTotal(items[..|items| - 1]) + LineTotal(items[|items| - 1].line)
  }

  lemma {:induction false} ItemsTotalConcat(a: seq<CartItem>, b: seq<CartItem>)
    ensures ItemsTotal(a + b) == ItemsTotal(a) + ItemsTotal(b)
  {
    if b == [] {
      assert a + b == a;
    } else {
      assert (a + b)[..|a + b| - 1] == a + b[..|b| - 1];
      ItemsTotalConcat(a, b[..|b| - 1]);
    }
  }

  lemma MatchingSnoc(p: Product, entries: seq<Entry>, x: Entry)
    ensures Matching(p, entries + [x]) ==
      Matching(p, entries) + (if x.line.productId == p.id then [CartItem(x.key, x.line, p)] else [])
  {
    assert (entries + [x])[..|entries|] == entries;
  }

  lemma ItemsTotalSingle(it: CartItem)
    ensures ItemsTotal([it]) == LineTotal(it.line)
  {
    assert [it][..0] == [];
  }

  /** One more line `x` adds one item per product carrying its id. */
  lemma {:induction false} JoinedSnocLength(products: seq<Product>, entries: seq<Entry>, x: Entry)
    ensures |Joined(products, entries + [x])| == |Joined(products, entries)| + CountId(products, x.line.productId)
  {
    if products != [] {
      var n := |products|;
      JoinedSnocLength(products[..n - 1], entries, x);
      MatchingSnoc(products[n - 1], entries, x);
    }
  }

  lemma MatchingSnocTotal(p: Product, entries: seq<Entry>, x: Entry)
    ensures ItemsTotal(Matching(p, entries + [x])) ==
      ItemsTotal(Matching(p, entries)) + (if x.line.productId == p.id then LineTotal(x.line) else 0.0)
  {
    MatchingSnoc(p, entries, x);
    if x.line.productId == p.id {
      var it := CartItem(x.key, x.line, p);
      ItemsTotalConcat(Matching(p, entries), [it]);
      ItemsTotalSingle(it);
    } else {
      assert Matching(p, entries) + [] == Matching(p, entries);
    }
  }

  /** ... and adds `x`'s line total once per such product. */
  lemma {:induction false} JoinedSnocTotal(products: seq<Product>, entries: seq<Entry>, x: Entry)
    ensures ItemsTotal(Joined(products, entries + [x])) ==
      ItemsTotal(Joined(products, entries)) + Times(CountId(products, x.line.productId), LineTotal(x.line))
  {
    if products != [] {
      var n := |products|;
      var prefix := products[..n - 1];
      var p := products[n - 1];
      var e' := entries + [x];
      var t := LineTotal(x.line);
      var c := CountId(prefix, x.line.productId);
      var a := ItemsTotal(Joined(prefix, e'));
      var b := ItemsTotal(Joined(prefix, entries));
      var ma := ItemsTotal(Matching(p, e'));
      var mb := ItemsTotal(Matching(p, entries));
      assert a == b + Times(c, t) by {
        JoinedSnocTotal(prefix, entries, x);
      }
      assert ma == mb + (if x.line.productId == p.id then t else 0.0) by {
        MatchingSnocTotal(p, entries, x);
      }
      assert ItemsTotal(Joined(products, e')) == a + ma by {
        JoinedTotalStep(products, e');
      }
      assert ItemsTotal(Joined(products, entries)) == b + mb by {
        JoinedTotalStep(products, entries);
      }
      assert Times(CountId(products, x.line.productId), t) == Times(c, t) + (if x.line.productId == p.id then t else 0.0) by {
        CountTimesStep(products, x.line.productId, t);
      }
    }
  }

  lemma JoinedTotalStep(products: seq<Product>, entries: seq<Entry>)
    requires products != []
    ensures var n := |products|;
      ItemsTotal(Joined(products, entries))
      == ItemsTotal(Joined(products[..n - 1], entries)) + ItemsTotal(Matching(products[n - 1], entries))
  {
    var n := |products|;
    ItemsTotalConcat(Joined(products[..n - 1], entries), Matching(products[n - 1], entries));
  }

  lemma CountTimesStep(products: seq<Product>, id: nat, t: real)
    requires products != []
    ensures var n := |products|;
      Times(CountId(products, id), t)
      == Times(CountId(products[..n - 1], id), t) + (if products[n - 1].id == id then t else 0.0)
  {
  }

  /** `n` copies of `t` added up. */
  function Times(n: nat, t: real): real
  {
    if n == 0 then 0.0 else Times(n - 1, t) + t
  }

  /** With unique product keys, iteration yields exactly one item per line
      whose product exists, and the yielded lines total what those lines total. */
  lemma {:induction false} JoinedCountsPresentLines(catalogue: seq<Product>, entries: seq<Entry>)
    requires UniqueIds(catalogue)
    ensures |Joined(catalogue, entries)| == |Present(catalogue, entries)|
    ensures ItemsTotal(Joined(catalogue, entries)) == PriceTotal(Present(catalogue, entries))
  {
    if entries == [] {
      assert Joined(catalogue, []) == [] by { JoinedEmpty(catalogue); }
    } else {
      var n := |entries|;
      var x := entries[n - 1];
      assert entries == entries[..n - 1] + [x];
      JoinedCountsPresentLines(catalogue, entries[..n - 1]);
      JoinedSnocLength(catalogue, entries[..n - 1], x);
      JoinedSnocTotal(catalogue, entries[..n - 1], x);
      CountIdUnique(catalogue, x.line.productId);
      var extra := if FindProduct(catalogue, x.line.productId).Some? then [x] else [];
      PriceTotalConcat(Present(catalogue, entries[..n - 1]), extra);
      if extra != [] {
        assert extra[..0] == [];
      }
    }
  }

  lemma {:induction false} JoinedEmpty(products: seq<Product>)
    ensures Joined(products, []) == []
  {
    if products != [] {
      JoinedEmpty(products[..|products| - 1]);
    }
  }

  /** When every line's product exists, all lines are present. */
  lemma {:induction false} AllPresent(catalogue: seq<Product>, entries: seq<Entry>)
    requires forall i :: 0 <= i < |entries| ==> FindProduct(catalogue, entries[i].line.productId).Some?
    ensures Present(catalogue, entries) == entries
  {
    if entries != [] {
      var n := |entries|;
      var init, last := entries[..n - 1], entries[n - 1];
      assert forall i :: 0 <= i < n - 1 ==> init[i] == entries[i];
      AllPresent(catalogue, init);
      assert FindProduct(catalogue, last.line.productId).Some?;
      SplitLast(entries);
      PresentSnoc(catalogue, init, last);
    }
  }

  lemma PresentSnoc(catalogue: seq<Product>, init: seq<Entry>, last: Entry)
    ensures Present(catalogue, init + [last])
      == Present(catalogue, init) + (if FindProduct(catalogue, last.line.productId).Some? then [last] else [])
  {
    assert (init + [last])[..|init|] == init;
  }

  lemma MatchingStep(p: Product, entries: seq<Entry>, j: nat)
    requires j < |entries|
    ensures Matching(p, entries[..j + 1]) == Matching(p, entries[..j]) +
      (if entries[j].line.productId == p.id then [CartItem(entries[j].key, entries[j].line, p)] else [])
  {
    assert entries[..j + 1][..j] == entries[..j];
  }

  lemma JoinedStep(products: seq<Product>, entries: seq<Entry>, i: nat)
    requires i < |products|
    ensures Joined(products[..i + 1], entries) == Joined(products[..i], entries) + Matching(products[i], entries[..|entries|])
  {
    assert products[..i + 1][..i] == products[..i];
    assert entries[..|entries|] == entries;
  }

  // ---------------------------------------------------------------- the session and the cart

  /** The request's session; `cart` is the value under CART_SESSION_ID, if any. */
  class Session {
    var cart: Option<seq<Entry>>
    var modified: bool

    ghost predicate Valid()
      reads this
    {
      cart.Some? ==> DistinctKeys(cart.value)
    }

    constructor (cart: Option<seq<Entry>>)
      requires cart.Some? ==> DistinctKeys(cart.value)
      ensures Valid() && this.cart == cart && !modified
    {
      this.cart := cart;
      modified := false;
    }
  }

  /** `not cart` on the stored value: a new Cart then stores an empty
      dictionary through `session[...] = {}`, which marks the session modified. */
  predicate StoresEmpty(stored: Option<seq<Entry>>)
  {
    stored.None? || stored.value == []
  }

  /** The lines a new Cart starts from: the stored dictionary, or a new empty
      one when nothing (or an empty dictionary) is stored. */
  function Restored(stored: Option<seq<Entry>>): seq<Entry>
  {
    if StoresEmpty(stored) then [] else stored.value
  }

  class Cart {
    const session: Session
    var entries: seq<Entry>
    /** False after `clear`: `self.cart` then is a dictionary the session no longer holds. */
    var attached: bool

    ghost predicate Valid()
      reads this, session
    {
      && DistinctKeys(entries)
      && session.Valid()
      && (attached ==> session.cart == Some(entries))
    }

    constructor (session: Session)
      requires session.Valid()
      modifies session
      ensures Valid() && this.session == session && attached
      ensures entries == Restored(old(session.cart)) && session.cart == Some(entries)
      ensures session.modified == (old(session.modified) || StoresEmpty(old(session.cart)))
    {
      this.session := session;
      var stored := session.cart;
      if StoresEmpty(stored) {
        session.cart := Some([]);
        session.modified := true;
        entries := [];
      } else {
        entries := stored.value;
      }
      attached := true;
    }

    /** Writes the lines back to the session dictionary they alias. */
    method Store()
      requires DistinctKeys(entries) && session.Valid()
      modifies session
      ensures Valid()
      ensures session.cart == if attached then Some(entries) else old(session.cart)
      ensures session.modified == old(session.modified)
    {
      if attached {
        session.cart := Some(entries);
      }
    }

    /** `save`: marks the session as modified. */
    method Save()
      modifies session
      ensures session.modified && session.cart == old(session.cart)
    {
      session.modified := true;
    }

    method Add(product: Product, quantity: int, size: Option<string>, updateQuantity: bool)
      requires Valid()
      modifies this, session
      ensures Valid() && attached == old(attached)
      ensures entries == Added(old(entries), product, quantity, size, updateQuantity)
      ensures session.cart == if attached then Some(entries) else old(session.cart)
      ensures session.modified
    {
      AddedKeysDistinct(entries, product, quantity, size, updateQuantity);
      var key := CartKey(product.id, size);
      var i: nat;
      match Find(entries, key) {
        case None =>
          entries := entries + [Entry(key, NewLine(product, size))];
          i := |entries| - 1;
        case Some(j) =>
          i := j;
      }
      var line := entries[i].line;
      if updateQuantity {
        line := line.(quantity := quantity);
      } else {
        line := line.(quantity := line.quantity + quantity);
      }
      entries := entries[i := Entry(key, line)];
      Store();
      Save();
    }

    method Remove(productId: nat, size: Option<string>)
      requires Valid()
      modifies this, session
      ensures Valid() && attached == old(attached)
      ensures entries == Removed(old(entries), CartKey(productId, size))
      ensures session.cart == if attached then Some(entries) else old(session.cart)
      ensures session.modified == (old(session.modified) || Find(old(entries), CartKey(productId, size)).Some?)
    {
      var key := CartKey(productId, size);
      RemovedLines(entries, key);
      var found := Find(entries, key);
      if found.Some? {
        var i := found.value;
        entries := entries[..i] + entries[i + 1..];
        Store();
        Save();
      }
    }

    /** `__len__`. */
    function Len(): int
      reads this
    {
      QuantitySum(entries)
    }

    /** `get_total_price` (exact; the source converts each price to float). */
    function GetTotalPrice(): real
      reads this
    {
      PriceTotal(entries)
    }

    /** `__iter__`: looks the cart's products up in one query, then yields for
        each product every line of it. */
    method Items(catalogue: seq<Product>) returns (items: seq<CartItem>)
      ensures items == Joined(catalogue, entries)
    {
      var products := Queried(catalogue, ProductIds(entries));
      items := [];
      for i := 0 to |products|
        invariant items == Joined(products[..i], entries)
      {
        var p := products[i];
        ghost var before := items;
        for j := 0 to |entries|
          invariant items == before + Matching(p, entries[..j])
        {
          MatchingStep(p, entries, j);
          if entries[j].line.productId == p.id {
            items := items + [CartItem(entries[j].key, entries[j].line, p)];
          }
        }
        JoinedStep(products, entries, i);
      }
      assert products[..|products|] == products;
      QueriedJoin(catalogue, entries);
    }

    /** `clear`: deletes the cart from the session. Deleting an absent key
        raises KeyError, reported as `ok == false`. */
    method Clear() returns (ok: bool)
      requires Valid()
      modifies this, session
      ensures Valid() && entries == old(entries)
      ensures ok == old(session.cart).Some?
      ensures ok ==> session.cart == None && session.modified && !attached
      ensures !ok ==> session.cart == old(session.cart) && session.modified == old(session.modified)
                      && attached == old(attached)
    {
      if session.cart.None? {
        return false;
      }
      session.cart := None;
      attached := false;
      Save();
      ok := true;
    }
  }
}
