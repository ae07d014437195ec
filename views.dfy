/** The request handlers of `store/views.py` that decide a cart update, a
    buy-now, a checkout, the cart page totals and who may see an order. A
    handler's answer is an `Outcome`: which redirect or page it responds with. */
module Views {
  import opened Base
  import opened Text
  import opened Catalog
  import opened ShoppingCart
  import opened Db
  import opened Orders

  /** `request.user`. */
  datatype User =
    | Anonymous
    | Member(id: nat, username: string, firstName: string, lastName: string, email: string, isStaff: bool)

  datatype Outcome =
    | RedirectCart                                        // redirect('cart_detail')
    | RedirectProduct(slug: string, error: Option<string>) // redirect('product-desc', slug=...)
    | RedirectCheckout                                    // redirect('checkout')
    | RedirectHome                                        // redirect('home')
    | OrderCreated(orderId: nat)                          // redirect('order_success', order_id=...)
    | ShowCheckout(subtotal: real, shipping: real, total: real, initialName: Option<string>, initialEmail: Option<string>)
    | ShowOrder(orderId: nat)
    | NotFound                                            // Http404 from get_object_or_404
    | ServerError                                         // an exception the view does not catch

  // ---------------------------------------------------------------- cart_detail

  datatype Totals = Totals(subtotal: real, discount: real, shipping: real, total: real)

  /** The totals of the cart page: shipping 120 on a positive subtotal, no discount. */
  function CartPageTotals(subtotal: real): Totals
  {
    var shipping := if subtotal > 0.0 then 120.0 else 0.0;
    Totals(subtotal, 0.0, shipping, subtotal - 0.0 + shipping)
  }

  /** The page never charges less than the goods; it charges something
      exactly when the subtotal is positive, and shipping only then. A
      subtotal made non-positive by negative quantities is shown unchanged. */
  lemma CartPageCharges(subtotal: real)
    ensures var r := CartPageTotals(subtotal);
      && r.subtotal == subtotal && r.discount == 0.0
      && r.total == r.subtotal - r.discount + r.shipping
      && r.total >= subtotal
      && (r.total > 0.0 <==> subtotal > 0.0)
      && (r.shipping != 0.0 <==> subtotal > 0.0)
      && (subtotal <= 0.0 ==> r.total == subtotal)
  {
  }

  /** `cart_detail`: building the Cart stores an empty cart when none is held. */
  method CartDetail(session: Session) returns (totals: Totals)
    requires session.Valid()
    modifies session
    ensures totals == CartPageTotals(PriceTotal(Restored(old(session.cart))))
    ensures session.cart == Some(Restored(old(session.cart)))
    ensures session.modified == (old(session.modified) || StoresEmpty(old(session.cart)))
  {
    var cart := new Cart(session);
    totals := CartPageTotals(cart.GetTotalPrice());
  }

  // ---------------------------------------------------------------- update_cart

  /** `update_cart`: on POST, overwrite the quantity of the line under
      `"<product_id>_<size or 'no_size'>"` if the cart has one. The product
      must exist (active or not); the cart is read before that check. */
  method UpdateCart(session: Session, catalogue: seq<Product>, productId: nat, size: Option<string>,
                    isPost: bool, quantity: int) returns (o: Outcome)
    requires session.Valid()
    modifies session
    ensures session.Valid()
    ensures !isPost ==> o == RedirectCart && session.cart == old(session.cart) && session.modified == old(session.modified)
    ensures isPost && FindProduct(catalogue, productId).None? ==>
      && o == NotFound && session.cart == Some(Restored(old(session.cart)))
      && session.modified == (old(session.modified) || StoresEmpty(old(session.cart)))
    ensures isPost && FindProduct(catalogue, productId).Some? ==>
      var entries := Restored(old(session.cart));
      var key := CartKey(productId, size);
      && o == RedirectCart
      && session.cart == Some(QuantitySet(entries, key, quantity))
      && session.modified == (old(session.modified) || StoresEmpty(old(session.cart)) || Find(entries, key).Some?)
  {
    if !isPost {
      return RedirectCart;
    }
    var cart := new Cart(session);
    if FindProduct(catalogue, productId).None? {
      return NotFound;
    }
    var key := CartKey(productId, size);
    QuantitySetLines(cart.entries, key, quantity);
    if Find(cart.entries, key).Some? {
      cart.entries := QuantitySet(cart.entries, key, quantity);
      cart.Store();
      cart.Save();
    }
    o := RedirectCart;
  }

  // ---------------------------------------------------------------- buy_now

  /** `get_object_or_404(Product, id=product_id, is_active=True)`: with unique
      primary keys, the 404 is raised exactly when no active product has the id. */
  function ActiveProduct(catalogue: seq<Product>, productId: nat): (r: Option<Product>)
    ensures r.Some? ==> r.value in catalogue && r.value.id == productId && r.value.isActive
    ensures UniqueIds(catalogue) && r.None? ==>
      forall p :: p in catalogue && p.id == productId ==> !p.isActive
  {
    FindProductUnique(catalogue, productId);
    match FindProduct(catalogue, productId)
    case Some(p) => if p.isActive then Some(p) else None
    case None => None
  }

  function SizeMissingMessage(): string
  {
    "Please select a size."
  }

  function SizeStockMessage(stock: nat, size: string): string
  {
    "Only " + NatToString(stock) + " items available in size " + size + "."
  }

  function StockMessage(stock: nat): string
  {
    "Only " + NatToString(stock) + " items available."
  }

  /** The checks of `buy_now` as written: the error message, or None when the
      product may go to the cart. With a size that names a ProductSize row, the
      product's overall stock is compared, not that row's. */
  function BuyNowCheckAsWritten(p: Product, quantity: int, size: Option<string>): Option<string>
  {
    if |p.sizes| > 0 && !TruthyString(size) then Some(SizeMissingMessage())
    else if TruthyString(size) then
      if FindSize(p.sizes, size.value).Some? && p.stockQuantity < quantity
      then Some(SizeStockMessage(p.stockQuantity, size.value)) else None
    else if p.stockQuantity < quantity then Some(StockMessage(p.stockQuantity))
    else None
  }

  /** The checks of `buy_now` with the size row's own stock compared. */
  function BuyNowCheck(p: Product, quantity: int, size: Option<string>): Option<string>
  {
    if |p.sizes| > 0 && !TruthyString(size) then Some(SizeMissingMessage())
    else if TruthyString(size) then
      match FindSize(p.sizes, size.value)
      case Some(ps) => if ps.stockQuantity < quantity then Some(SizeStockMessage(ps.stockQuantity, size.value)) else None
      case None => None
    else if p.stockQuantity < quantity then Some(StockMessage(p.stockQuantity))
    else None
  }

  /** What the corrected checks let through: a sized product needs a size;
      a size with a row of its own needs that much stock in the row; an
      unsized request needs that much product stock. A size naming no row
      is not stock-checked. Non-positive quantities always pass. */
  lemma BuyNowCheckRespectsStock(p: Product, quantity: int, size: Option<string>)
    ensures BuyNowCheck(p, quantity, size).None? <==>
      if TruthyString(size) then
        FindSize(p.sizes, size.value).None? || quantity <= FindSize(p.sizes, size.value).value.stockQuantity
      else |p.sizes| == 0 && quantity <= p.stockQuantity
    ensures |p.sizes| > 0 && !TruthyString(size) ==> BuyNowCheck(p, quantity, size) == Some(SizeMissingMessage())
    ensures |p.sizes| == 0 && !TruthyString(size) && !IsInStock(p) && quantity >= 1 ==>
      BuyNowCheck(p, quantity, size) == Some(StockMessage(0))
  {
  }

  /** As written, a size row with no stock is accepted while the product's
      overall stock covers the request. */
  lemma BuyNowAsWrittenIgnoresSizeStock()
    ensures var p := Product(1, "Tee", "tee", 10.0, None, true, 10, [ProductSize("M", 0)]);
      && FindSize(p.sizes, "M") == Some(ProductSize("M", 0))
      && BuyNowCheckAsWritten(p, 5, Some("M")) == None
      && BuyNowCheck(p, 5, Some("M")) == Some(SizeStockMessage(0, "M"))
  {
  }

  /** The two checks differ only in which stock a size row is compared with:
      without a size, or with a size naming no row, they agree. */
  lemma BuyNowChecksAgreeWithoutSizeRow(p: Product, quantity: int, size: Option<string>)
    requires !TruthyString(size) || FindSize(p.sizes, size.value).None?
    ensures BuyNowCheckAsWritten(p, quantity, size) == BuyNowCheck(p, quantity, size)
    ensures TruthyString(size) ==> BuyNowCheck(p, quantity, size) == None
  {
  }

  /** `buy_now` as written. Any request other than POST reaches
      `redirect(..., slug=product.slug)` with `product` unbound, which raises. */
  function BuyNowOutcomeAsWritten(catalogue: seq<Product>, productId: nat, isPost: bool,
                                  quantity: int, size: Option<string>): Outcome
  {
    if !isPost then ServerError
    else match ActiveProduct(catalogue, productId)
      case None => NotFound
      case Some(p) =>
        match BuyNowCheckAsWritten(p, quantity, size)
        case Some(msg) => RedirectProduct(p.slug, Some(msg))
        case None => RedirectCheckout
  }

  /** `buy_now` with the product looked up for every method and the size row's
      stock compared: a GET goes back to the product page. */
  function BuyNowOutcome(catalogue: seq<Product>, productId: nat, isPost: bool,
                         quantity: int, size: Option<string>): Outcome
  {
    match ActiveProduct(catalogue, productId)
    case None => NotFound
    case Some(p) =>
      if !isPost then RedirectProduct(p.slug, None)
      else match BuyNowCheck(p, quantity, size)
        case Some(msg) => RedirectProduct(p.slug, Some(msg))
        case None => RedirectCheckout
  }

  /** As written, every GET fails, even for a product that exists; with the
      correction it answers with that product's page. */
  lemma BuyNowGetFails(catalogue: seq<Product>, productId: nat, quantity: int, size: Option<string>)
    ensures BuyNowOutcomeAsWritten(catalogue, productId, false, quantity, size) == ServerError
    ensures ActiveProduct(catalogue, productId).Some? ==>
      BuyNowOutcome(catalogue, productId, false, quantity, size) ==
        RedirectProduct(ActiveProduct(catalogue, productId).value.slug, None)
  {
  }

  /** On POST the two handlers differ only through their checks. */
  lemma BuyNowPostAgrees(catalogue: seq<Product>, productId: nat, quantity: int, size: Option<string>)
    requires ActiveProduct(catalogue, productId).Some?
    requires BuyNowCheckAsWritten(ActiveProduct(catalogue, productId).value, quantity, size) ==
             BuyNowCheck(ActiveProduct(catalogue, productId).value, quantity, size)
    ensures BuyNowOutcomeAsWritten(catalogue, productId, true, quantity, size) ==
            BuyNowOutcome(catalogue, productId, true, quantity, size)
  {
  }

  /** `buy_now` (corrected): the cart is built, and the line added, only when
      every check passes; any other answer leaves the session untouched. */
  method BuyNow(session: Session, catalogue: seq<Product>, productId: nat, isPost: bool,
                quantity: int, size: Option<string>) returns (o: Outcome)
    requires session.Valid()
    modifies session
    ensures session.Valid()
    ensures o == BuyNowOutcome(catalogue, productId, isPost, quantity, size)
    ensures o == RedirectCheckout ==>
      && session.cart == Some(Added(Restored(old(session.cart)), ActiveProduct(catalogue, productId).value, quantity, size, false))
      && session.modified
    ensures o != RedirectCheckout ==> session.cart == old(session.cart) && session.modified == old(session.modified)
  {
    var found := ActiveProduct(catalogue, productId);
    if found.None? {
      return NotFound;
    }
    var product := found.value;
    if !isPost {
      return RedirectProduct(product.slug, None);
    }
    var rejected := BuyNowCheck(product, quantity, size);
    if rejected.Some? {
      return RedirectProduct(product.slug, rejected);
    }
    var cart := new Cart(session);
    cart.Add(product, quantity, size, false);
    o := RedirectCheckout;
  }

  // ---------------------------------------------------------------- checkout: pre-filled name

  /** `str.isspace` for one character: what `strip()` removes. */
  predicate IsSpace(c: char)
  {
    || c == ' ' || ('\t' <= c <= '\r') || ('\U{1C}' <= c <= '\U{1F}') || c == '\U{85}' || c == '\U{A0}'
    || c == '\U{1680}' || ('\U{2000}' <= c <= '\U{200A}') || c == '\U{2028}' || c == '\U{2029}'
    || c == '\U{202F}' || c == '\U{205F}' || c == '\U{3000}'
  }

  predicate Blank(s: string)
  {
    forall i :: 0 <= i < |s| ==> IsSpace(s[i])
  }

  function LeadingSpaces(s: string): (n: nat)
    ensures n <= |s| && (forall i :: 0 <= i < n ==> IsSpace(s[i])) && (n < |s| ==> !IsSpace(s[n]))
  {
    if s == [] || !IsSpace(s[0]) then 0
    else 1 + LeadingSpaces(s[1..])
  }

  function TrailingSpaces(s: string): (n: nat)
    ensures n <= |s| && (forall i :: |s| - n <= i < |s| ==> IsSpace(s[i])) && (n < |s| ==> !IsSpace(s[|s| - 1 - n]))
  {
    if s == [] || !IsSpace(s[|s| - 1]) then 0
    else 1 + TrailingSpaces(s[..|s| - 1])
  }

  /** `str.strip()`. */
  function Strip(s: string): (r: string)
    ensures r == [] <==> Blank(s)
    ensures r != [] ==> !IsSpace(r[0]) && !IsSpace(r[|r| - 1])
    ensures |r| <= |s|
  {
    var a := LeadingSpaces(s);
    if a == |s| then []
    else
      var b := TrailingSpaces(s);
      assert b < |s| - a;
      assert !Blank(s) by {
        assert !IsSpace(s[a]);
      }
      s[a..|s| - b]
  }

  /** What `strip()` returns is what is left of `s`: the slice after its
      leading whitespace, followed in `s` by nothing but whitespace. */
  lemma StripIsSlice(s: string)
    ensures var r := Strip(s);
      && LeadingSpaces(s) + |r| <= |s| && r == s[LeadingSpaces(s)..LeadingSpaces(s) + |r|]
      && Blank(s[..LeadingSpaces(s)]) && Blank(s[LeadingSpaces(s) + |r|..])
  {
    if Blank(s) {
      assert LeadingSpaces(s) == |s|;
      assert s[..|s|] == s && s[|s|..] == [];
    } else {
      var x, m, y := StripParts(s);
    }
  }

  /** A non-blank `s` is its leading whitespace, its stripped core and its
      trailing whitespace, in that order. */
  lemma StripParts(s: string) returns (x: string, m: string, y: string)
    requires !Blank(s)
    ensures s == x + m + y && Strip(s) == m
    ensures x == s[..LeadingSpaces(s)] && m == s[|x|..|x| + |m|] && y == s[|x| + |m|..]
    ensures y == s[|s| - TrailingSpaces(s)..]
    ensures Blank(x) && Blank(y) && m != [] && !IsSpace(m[0]) && !IsSpace(m[|m| - 1])
  {
    var a, b := LeadingSpaces(s), TrailingSpaces(s);
    assert s[..|s|] == s;
    assert a < |s|;
    assert a + b < |s| by {
      assert !IsSpace(s[a]);
    }
    x, m, y := s[..a], s[a..|s| - b], s[|s| - b..];
    assert m[0] == s[a] && m[|m| - 1] == s[|s| - 1 - b];
    forall i | 0 <= i < |x| ensures IsSpace(x[i]) {
      assert x[i] == s[i];
    }
    forall i | 0 <= i < |y| ensures IsSpace(y[i]) {
      assert y[i] == s[|s| - b + i];
    }
    assert s == x + m + y;
    StripSurrounded(x, m, y);
  }

  /** A non-blank core with clean ends, padded by whitespace, strips to that core. */
  lemma StripSurrounded(x: string, m: string, y: string)
    requires Blank(x) && Blank(y) && m != [] && !IsSpace(m[0]) && !IsSpace(m[|m| - 1])
    ensures Strip(x + m + y) == m
  {
    var s := x + m + y;
    assert s == x + (m + y) && (m + y)[0] == m[0];
    LeadingOf(x, m + y);
    assert s == (x + m) + y && (x + m)[|x + m| - 1] == m[|m| - 1];
    TrailingOf(x + m, y);
    assert s[|x|..|s| - |y|] == m;
  }

  lemma LeadingOf(x: string, t: string)
    requires Blank(x) && t != [] && !IsSpace(t[0])
    ensures LeadingSpaces(x + t) == |x|
  {
    var s := x + t;
    assert s[..|x|] == x && s[|x|] == t[0];
    LeadingUnique(s, |x|);
  }

  lemma TrailingOf(t: string, y: string)
    requires Blank(y) && t != [] && !IsSpace(t[|t| - 1])
    ensures TrailingSpaces(t + y) == |y|
  {
    var s := t + y;
    assert s[|s| - |y|..] == y && s[|s| - 1 - |y|] == t[|t| - 1];
    TrailingUnique(s, |y|);
  }

  /** The characterisation in LeadingSpaces' contract has one solution. */
  lemma {:induction false} LeadingUnique(s: string, k: nat)
    requires k <= |s| && Blank(s[..k]) && (k < |s| ==> !IsSpace(s[k]))
    ensures LeadingSpaces(s) == k
  {
    if k > 0 {
      assert IsSpace(s[..k][0]);
      assert s[1..][..k - 1] == s[..k][1..];
      LeadingUnique(s[1..], k - 1);
    }
  }

  /** The characterisation in TrailingSpaces' contract has one solution. */
  lemma {:induction false} TrailingUnique(s: string, k: nat)
    requires k <= |s| && Blank(s[|s| - k..]) && (k < |s| ==> !IsSpace(s[|s| - 1 - k]))
    ensures TrailingSpaces(s) == k
  {
    if k > 0 {
      var init := s[..|s| - 1];
      assert IsSpace(s[|s| - k..][k - 1]);
      assert init[|init| - (k - 1)..] == s[|s| - k..][..k - 1];
      TrailingUnique(init, k - 1);
    }
  }

  /** Stripping twice is stripping once. */
  lemma StripIdempotent(s: string)
    ensures Strip(Strip(s)) == Strip(s)
  {
    var r := Strip(s);
    if r != [] {
      assert LeadingSpaces(r) == 0;
      assert TrailingSpaces(r) == 0;
    }
  }

  /** The `shipping_full_name` the form is pre-filled with, if any. */
  function PrefillName(u: User): Option<string>
  {
    match u
    case Anonymous => None
    case Member(_, username, first, last, _, _) =>
      var full := Strip(first + " " + last);
      Some(if full == "" then username else full)
  }

  function PrefillEmail(u: User): Option<string>
  {
    match u
    case Anonymous => None
    case Member(_, _, _, _, email, _) => Some(email)
  }

  /** The name falls back to the username exactly when first and last name
      are both blank; otherwise it is non-empty and carries no surrounding
      whitespace. Clean names are joined by one space. */
  lemma PrefillNameFallback(u: User)
    requires u.Member?
    ensures PrefillName(u).Some?
    ensures Blank(u.firstName) && Blank(u.lastName) ==> PrefillName(u) == Some(u.username)
    ensures !(Blank(u.firstName) && Blank(u.lastName)) ==>
      var r := PrefillName(u).value;
      r != "" && !IsSpace(r[0]) && !IsSpace(r[|r| - 1])
    ensures u.firstName != "" && u.lastName != "" && Strip(u.firstName) == u.firstName && Strip(u.lastName) == u.lastName ==>
      PrefillName(u) == Some(u.firstName + " " + u.lastName)
  {
    var first, last := u.firstName, u.lastName;
    var r := Strip(first + " " + last);
    assert PrefillName(u) == Some(if r == "" then u.username else r);
    JoinedBlank(first, last);
    if first != "" && last != "" && Strip(first) == first && Strip(last) == last {
      CleanJoin(first, last);
    }
  }

  /** With only one of the two names non-blank, the name is that one stripped:
      a first name "Ann " alone gives "Ann". */
  lemma PrefillNameOneName(u: User)
    requires u.Member?
    ensures !Blank(u.firstName) && Blank(u.lastName) ==> PrefillName(u) == Some(Strip(u.firstName))
    ensures Blank(u.firstName) && !Blank(u.lastName) ==> PrefillName(u) == Some(Strip(u.lastName))
  {
    var first, last := u.firstName, u.lastName;
    if !Blank(first) && Blank(last) {
      StripFirstOnly(first, last);
      assert Strip(first + " " + last) != "";
    }
    if Blank(first) && !Blank(last) {
      StripLastOnly(first, last);
      assert Strip(first + " " + last) != "";
    }
  }

  lemma StripFirstOnly(first: string, last: string)
    requires !Blank(first) && Blank(last)
    ensures Strip(first + " " + last) == Strip(first)
  {
    var x, m, y := StripParts(first);
    BlankAppend(" ", last);
    BlankAppend(y, " " + last);
    Regroup(x, m, y, last);
    StripSurrounded(x, m, y + (" " + last));
  }

  lemma StripLastOnly(first: string, last: string)
    requires Blank(first) && !Blank(last)
    ensures Strip(first + " " + last) == Strip(last)
  {
    var x, m, y := StripParts(last);
    BlankAppend(first, " ");
    BlankAppend(first + " ", x);
    RegroupLeft(first + " ", x, m, y);
    StripSurrounded(first + " " + x, m, y);
  }

  /** Names padded only on the outside are joined by one space, the padding
      dropped: " Ann" and "Lee  " give "Ann Lee". */
  lemma PrefillNamePadded(u: User, pre: string, first: string, last: string, post: string)
    requires u.Member? && u.firstName == pre + first && u.lastName == last + post
    requires Blank(pre) && Blank(post) && first != "" && last != ""
    requires !IsSpace(first[0]) && !IsSpace(last[|last| - 1])
    ensures PrefillName(u) == Some(first + " " + last)
  {
    var m := first + " " + last;
    assert m[0] == first[0] && m[|m| - 1] == last[|last| - 1];
    RegroupPadded(pre, first, last, post);
    StripSurrounded(pre, m, post);
  }

  /** With both names non-blank, the name is the first name stripped on the
      left and the last name stripped on the right, joined by one space: the
      whitespace between the two names is kept. */
  lemma PrefillNameBothNames(u: User)
    requires u.Member? && !Blank(u.firstName) && !Blank(u.lastName)
    ensures var first, last := u.firstName, u.lastName;
      PrefillName(u) == Some(Strip(first) + first[|first| - TrailingSpaces(first)..] + " "
        + last[..LeadingSpaces(last)] + Strip(last))
  {
    var first, last := u.firstName, u.lastName;
    var x1, m1, y1 := StripParts(first);
    var x2, m2, y2 := StripParts(last);
    var m := m1 + y1 + " " + x2 + m2;
    assert m[0] == m1[0] && m[|m| - 1] == m2[|m2| - 1];
    RegroupBoth(x1, m1, y1, x2, m2, y2);
    StripSurrounded(x1, m, y2);
  }

  lemma Regroup(x: string, m: string, y: string, z: string)
    ensures x + m + y + " " + z == x + m + (y + (" " + z))
  {
  }

  lemma RegroupLeft(w: string, x: string, m: string, y: string)
    ensures w + (x + m + y) == (w + x) + m + y
  {
  }

  lemma RegroupPadded(pre: string, first: string, last: string, post: string)
    ensures (pre + first) + " " + (last + post) == pre + (first + " " + last) + post
  {
  }

  lemma RegroupBoth(x1: string, m1: string, y1: string, x2: string, m2: string, y2: string)
    ensures (x1 + m1 + y1) + " " + (x2 + m2 + y2) == x1 + (m1 + y1 + " " + x2 + m2) + y2
  {
  }

  lemma BlankAppend(p: string, q: string)
    requires Blank(p) && Blank(q)
    ensures Blank(p + q)
  {
    forall i | 0 <= i < |p + q| ensures IsSpace((p + q)[i]) {
      if i >= |p| {
        assert (p + q)[i] == q[i - |p|];
      }
    }
  }

  /** `first + " " + last` is blank exactly when both names are. */
  lemma JoinedBlank(first: string, last: string)
    ensures Blank(first + " " + last) <==> Blank(first) && Blank(last)
  {
    var s := first + " " + last;
    if Blank(first) && Blank(last) {
      forall i | 0 <= i < |s| ensures IsSpace(s[i]) {
        if i < |first| {
          assert s[i] == first[i];
        } else if i > |first| {
          assert s[i] == last[i - |first| - 1];
        }
      }
    } else if !Blank(first) {
      var i :| 0 <= i < |first| && !IsSpace(first[i]);
      assert s[i] == first[i];
    } else {
      var i :| 0 <= i < |last| && !IsSpace(last[i]);
      assert s[|first| + 1 + i] == last[i];
    }
  }

  lemma CleanJoin(first: string, last: string)
    requires first != "" && last != "" && Strip(first) == first && Strip(last) == last
    ensures Strip(first + " " + last) == first + " " + last
  {
    var s := first + " " + last;
    assert s[0] == first[0];
    assert s[|s| - 1] == last[|last| - 1];
    assert LeadingSpaces(s) == 0;
    assert TrailingSpaces(s) == 0;
    assert s[0..|s|] == s;
  }

  // ---------------------------------------------------------------- checkout: form and order

  /** The cleaned data of CheckoutForm. Optional fields hold "" when left empty. */
  datatype CheckoutForm = CheckoutForm(
    fullName: string, email: string, phone: string, address: string, city: string,
    state: string, zipCode: string, deliveryArea: string, paymentMethod: string,
    transactionId: string, senderMobileNumber: string, notes: string)

  /** `form.is_valid()`: the required fields are filled, lengths are within
      their limits and both choice fields hold one of their choices. */
  predicate FormValid(f: CheckoutForm)
  {
    && f.fullName != "" && |f.fullName| <= 200
    && f.email != ""
    && f.phone != "" && |f.phone| <= 15
    && f.address != ""
    && f.city != "" && |f.city| <= 100
    && |f.state| <= 100 && |f.zipCode| <= 10
    && f.deliveryArea in ["inside", "outside"]
    && (exists i :: 0 <= i < |PaymentMethodChoices| && PaymentMethodChoices[i].0 == f.paymentMethod)
    && |f.transactionId| <= 100 && |f.senderMobileNumber| <= 15
  }

  /** The shipping shown with the form, before the delivery area is known. */
  const FormShipping: real := 60.0

  /** `shipping_cost = 60 if delivery_area == 'inside' else 120`. */
  function DeliveryShipping(area: string): real
  {
    if area == "inside" then 60.0 else 120.0
  }

  /** The Order that `Order.objects.create` is given by a valid checkout. */
  function PlacedOrder(f: CheckoutForm, u: User, subtotal: real): OrderRow
  {
    var shipping := DeliveryShipping(f.deliveryArea);
    OrderRow(
      "", if u.Member? then Some(u.id) else None, "pending", "pending", f.paymentMethod,
      subtotal, 0.0, 0.0, shipping, subtotal - 0.0 + shipping, None,
      Shipping(f.fullName, f.email, f.phone, f.address, f.city, Some(f.state), Some(f.zipCode)),
      Some(f.transactionId), Some(f.senderMobileNumber), Some(f.notes))
  }

  /** A saved checkout order is new and unpaid, carries a generated number,
      can still be cancelled, and charges the cart subtotal plus 60 inside the
      delivery area and 120 outside it. */
  lemma PlacedOrderFacts(f: CheckoutForm, u: User, subtotal: real, rows: map<nat, OrderRow>, nextPk: nat,
                         now: int, t: Stamp, suffix: nat)
    requires FormValid(f) && IsSuffix(suffix)
    ensures var s := OrderSaved(rows, nextPk, None, PlacedOrder(f, u, subtotal), now, t, suffix);
      && s.row.orderNumber == OrderNumber(t, suffix)
      && s.row.status == "pending" && CanBeCancelled(s.row.status)
      && s.row.paymentStatus == "pending" && !IsPaid(s.row.paymentStatus) && s.row.paidAt == None
      && s.row.subtotal == subtotal
      && s.row.shippingCost == (if f.deliveryArea == "outside" then 120.0 else 60.0)
      && s.row.total == subtotal + s.row.shippingCost
      && (s.error.Some? <==> NumberTaken(rows, None, OrderNumber(t, suffix)))
      && s.error != Some(DoesNotExist)
  {
  }

  /** The item row created for one iterated cart line. */
  function ItemRowOf(orderId: nat, it: CartItem): ItemRow
  {
    ItemRow(orderId, it.product.id, it.product.name, it.line.size, it.line.quantity, it.line.price)
  }

  function ItemRows(orderId: nat, lines: seq<CartItem>): (rows: seq<ItemRow>)
    ensures |rows| == |lines|
  {
    if lines == [] then [] else ItemRows(orderId, lines[..|lines| - 1]) + [ItemRowOf(orderId, lines[|lines| - 1])]
  }

  /** The `i`-th row is made from the `i`-th line. */
  lemma {:induction false} ItemRowsAt(orderId: nat, lines: seq<CartItem>)
    ensures forall i :: 0 <= i < |lines| ==> ItemRows(orderId, lines)[i] == ItemRowOf(orderId, lines[i])
  {
    if lines != [] {
      var n := |lines|;
      ItemRowsAt(orderId, lines[..n - 1]);
      assert forall i :: 0 <= i < n - 1 ==> lines[..n - 1][i] == lines[i];
    }
  }

  /** How many leading lines the item loop stores before a negative quantity stops it. */
  function StoredPrefix(lines: seq<CartItem>): (n: nat)
    ensures n <= |lines|
    ensures forall i :: 0 <= i < n ==> lines[i].line.quantity >= 0
    ensures n < |lines| ==> lines[n].line.quantity < 0
  {
    if lines == [] || lines[0].line.quantity < 0 then 0
    else
      var n := 1 + StoredPrefix(lines[1..]);
      assert forall i :: 1 <= i < n ==> lines[i] == lines[1..][i - 1];
      n
  }

  /** The sum of `total_price` over item rows. */
  function ItemsSum(rows: seq<ItemRow>): real
  {
    if rows == [] then 0.0
    else ItemsSum(rows[..|rows| - 1]) + TotalPrice(Some(rows[|rows| - 1].price), Some(rows[|rows| - 1].quantity))
  }

  lemma {:induction false} ItemsSumOfLines(orderId: nat, lines: seq<CartItem>)
    ensures ItemsSum(ItemRows(orderId, lines)) == ItemsTotal(lines)
  {
    if lines != [] {
      var n := |lines|;
      var rows := ItemRows(orderId, lines);
      var init := ItemRows(orderId, lines[..n - 1]);
      ItemsSumOfLines(orderId, lines[..n - 1]);
      assert rows == init + [ItemRowOf(orderId, lines[n - 1])];
      assert rows[..n - 1] == init;
      assert ItemsSum(rows) == ItemsSum(init) + TotalPrice(Some(lines[n - 1].line.price), Some(lines[n - 1].line.quantity));
      assert ItemsTotal(lines) == ItemsTotal(lines[..n - 1]) + LineTotal(lines[n - 1].line);
    }
  }

  /** The items of a completed checkout: one per line whose product still
      exists, each copying that line's size, quantity and snapshot price, and
      their `total_price` adds up to the surviving lines' total. The order's
      subtotal counts every line, so it equals the items' sum when all the
      cart's products exist. */
  lemma CheckoutItemsMatchCart(catalogue: seq<Product>, entries: seq<Entry>, orderId: nat)
    requires UniqueIds(catalogue)
    ensures var rows := ItemRows(orderId, Joined(catalogue, entries));
      && |rows| == |Present(catalogue, entries)|
      && ItemsSum(rows) == PriceTotal(Present(catalogue, entries))
      && ((forall i :: 0 <= i < |entries| ==> FindProduct(catalogue, entries[i].line.productId).Some?) ==>
            ItemsSum(rows) == PriceTotal(entries))
  {
    var lines := Joined(catalogue, entries);
    JoinedCountsPresentLines(catalogue, entries);
    ItemsSumOfLines(orderId, lines);
    if forall i :: 0 <= i < |entries| ==> FindProduct(catalogue, entries[i].line.productId).Some? {
      AllPresent(catalogue, entries);
    }
  }

  /** Every item row belongs to the new order and copies one cart line's
      product, size, quantity and snapshot price. */
  lemma ItemRowsCopyLines(catalogue: seq<Product>, entries: seq<Entry>, orderId: nat)
    ensures var rows := ItemRows(orderId, Joined(catalogue, entries));
      forall k :: 0 <= k < |rows| ==>
        (&& rows[k].orderId == orderId
         && Entry(Joined(catalogue, entries)[k].key,
                  Line(rows[k].quantity, rows[k].price, rows[k].size, rows[k].productId)) in entries)
  {
    JoinedSound(catalogue, entries);
    ItemRowsAt(orderId, Joined(catalogue, entries));
  }

  /** A line whose product was deleted is still charged in the subtotal but
      gets no order item. */
  lemma DeletedProductIsChargedWithoutItem()
    ensures var entries := [Entry("7_no_size", Line(1, 10.0, None, 7))];
      && QuantitySum(entries) == 1
      && PriceTotal(entries) == 10.0
      && Joined([], entries) == []
  {
    var entries := [Entry("7_no_size", Line(1, 10.0, None, 7))];
    assert entries[..0] == [];
    JoinedEmpty([]);
    assert Queried([], ProductIds(entries)) == [];
  }

  /** Storing line `i` under the next key turns the table holding the rows of
      the first `i` lines into the one holding the rows of the first `i + 1`. */
  lemma StoredStep(rows0: map<nat, ItemRow>, pk0: nat, orderId: nat, lines: seq<CartItem>, i: nat,
                   before: map<nat, ItemRow>, after: map<nat, ItemRow>)
    requires i < |lines|
    requires before == Appended(rows0, pk0, ItemRows(orderId, lines[..i]))
    requires after == before[pk0 + i := ItemRowOf(orderId, lines[i])]
    ensures after == Appended(rows0, pk0, ItemRows(orderId, lines[..i + 1]))
  {
    assert lines[..i + 1][..i] == lines[..i];
    assert ItemRows(orderId, lines[..i + 1])[..i] == ItemRows(orderId, lines[..i]);
  }

  /** The loop stops exactly at `StoredPrefix`. */
  lemma StoredPrefixAt(lines: seq<CartItem>, i: nat)
    requires i <= |lines| && forall j :: 0 <= j < i ==> lines[j].line.quantity >= 0
    requires i < |lines| ==> lines[i].line.quantity < 0
    ensures StoredPrefix(lines) == i
  {
  }

  /** `OrderItem.objects.create(...)` for one iterated line. */
  method CreateItem(items: Table<ItemRow>, orderId: nat, it: CartItem) returns (ok: bool)
    requires items.Valid()
    modifies items
    ensures items.Valid()
    ensures ok <==> it.line.quantity >= 0
    ensures ok ==> items.rows == old(items.rows)[old(items.nextPk) := ItemRowOf(orderId, it)]
                   && items.nextPk == old(items.nextPk) + 1
    ensures !ok ==> items.rows == old(items.rows) && items.nextPk == old(items.nextPk)
  {
    var item := new OrderItem(orderId, it.product, it.product.name, it.line.size, Some(it.line.quantity), Some(it.line.price));
    var error := item.Save(items);
    ok := error.None?;
  }

  /** The item loop of `checkout`: one OrderItem per iterated line, stopping
      at the first save that raises. */
  method SaveItems(items: Table<ItemRow>, orderId: nat, lines: seq<CartItem>) returns (ok: bool)
    requires items.Valid()
    modifies items
    ensures items.Valid()
    ensures ok <==> StoredPrefix(lines) == |lines|
    ensures items.rows == Appended(old(items.rows), old(items.nextPk), ItemRows(orderId, lines[..StoredPrefix(lines)]))
    ensures items.nextPk == old(items.nextPk) + StoredPrefix(lines)
  {
    ghost var rows0, pk0 := items.rows, items.nextPk;
    var i := 0;
    while i < |lines|
      invariant 0 <= i <= |lines|
      invariant forall j :: 0 <= j < i ==> lines[j].line.quantity >= 0
      invariant items.Valid()
      invariant items.rows == Appended(rows0, pk0, ItemRows(orderId, lines[..i]))
      invariant items.nextPk == pk0 + i
    {
      ghost var before := items.rows;
      var created := CreateItem(items, orderId, lines[i]);
      if !created {
        StoredPrefixAt(lines, i);
        return false;
      }
      StoredStep(rows0, pk0, orderId, lines, i, before, items.rows);
      i := i + 1;
    }
    StoredPrefixAt(lines, i);
    ok := true;
  }

  /** The `try` block of a valid checkout POST: the Order, its items, and
      clearing the cart. */
  method PlaceOrder(cart: Cart, catalogue: seq<Product>, orders: Table<OrderRow>, items: Table<ItemRow>,
                    user: User, form: CheckoutForm, now: int, t: Stamp, suffix: nat) returns (o: Outcome)
    requires cart.Valid() && cart.attached && orders.Valid() && items.Valid() && IsSuffix(suffix)
    modifies cart, cart.session, orders, items
    ensures orders.Valid() && items.Valid() && cart.session.Valid()
    ensures var entries := old(cart.entries);
      var s := OrderSaved(old(orders.rows), old(orders.nextPk), None, PlacedOrder(form, user, PriceTotal(entries)),
                          now, t, suffix);
      var lines := Joined(catalogue, entries);
      var n := StoredPrefix(lines);
      && orders.rows == s.rows && orders.nextPk == s.nextPk
      && (s.error.Some? ==>
            o == RedirectCheckout && cart.session.cart == Some(entries)
            && items.rows == old(items.rows) && items.nextPk == old(items.nextPk))
      && (s.error.None? ==>
            && items.rows == Appended(old(items.rows), old(items.nextPk), ItemRows(s.pk.value, lines[..n]))
            && items.nextPk == old(items.nextPk) + n
            && (n == |lines| ==> o == OrderCreated(s.pk.value) && cart.session.cart == None)
            && (n < |lines| ==> o == RedirectCheckout && cart.session.cart == Some(entries)))
  {
    var order := new Order(PlacedOrder(form, user, cart.GetTotalPrice()));
    var error := order.Save(orders, now, t, suffix);
    if error.Some? {
      return RedirectCheckout;
    }
    var orderId := order.pk.value;
    var lines := cart.Items(catalogue);
    var saved := SaveItems(items, orderId, lines);
    if !saved {
      return RedirectCheckout;
    }
    var cleared := cart.Clear();
    assert cleared;
    o := OrderCreated(orderId);
  }

  /** `checkout`. The Cart is built first (storing an empty cart when none is
      held). `not cart` asks `__len__`, which raises when the quantities sum
      to a negative number. A GET or an invalid POST shows the form. A valid
      POST creates the Order, then one OrderItem per iterated line, then
      clears the cart; an exception on the way is reported by redirecting to
      the checkout page, and what was already written stays written. */
  method Checkout(session: Session, catalogue: seq<Product>, orders: Table<OrderRow>, items: Table<ItemRow>,
                  user: User, isPost: bool, form: CheckoutForm, now: int, t: Stamp, suffix: nat)
    returns (o: Outcome)
    requires session.Valid() && orders.Valid() && items.Valid() && IsSuffix(suffix)
    modifies session, orders, items
    ensures orders.Valid() && items.Valid() && session.Valid()
    ensures var entries := Restored(old(session.cart));
      && (QuantitySum(entries) < 0 ==> o == ServerError)
      && (QuantitySum(entries) == 0 ==> o == RedirectCart)
      && (QuantitySum(entries) > 0 && !(isPost && FormValid(form)) ==>
            var subtotal := PriceTotal(entries);
            o == ShowCheckout(subtotal, FormShipping, subtotal - 0.0 + FormShipping, PrefillName(user), PrefillEmail(user)))
    ensures var entries := Restored(old(session.cart));
      QuantitySum(entries) <= 0 || !(isPost && FormValid(form)) ==>
        && session.cart == Some(entries)
        && session.modified == (old(session.modified) || StoresEmpty(old(session.cart)))
        && orders.rows == old(orders.rows) && orders.nextPk == old(orders.nextPk)
        && items.rows == old(items.rows) && items.nextPk == old(items.nextPk)
    ensures var entries := Restored(old(session.cart));
      QuantitySum(entries) > 0 && isPost && FormValid(form) ==>
        var s := OrderSaved(old(orders.rows), old(orders.nextPk), None, PlacedOrder(form, user, PriceTotal(entries)),
                            now, t, suffix);
        var lines := Joined(catalogue, entries);
        var n := StoredPrefix(lines);
        && orders.rows == s.rows && orders.nextPk == s.nextPk
        && (s.error.Some? ==>
              o == RedirectCheckout && session.cart == Some(entries)
              && items.rows == old(items.rows) && items.nextPk == old(items.nextPk))
        && (s.error.None? ==>
              && items.rows == Appended(old(items.rows), old(items.nextPk), ItemRows(s.pk.value, lines[..n]))
              && items.nextPk == old(items.nextPk) + n
              && (n == |lines| ==> o == OrderCreated(s.pk.value) && session.cart == None)
              && (n < |lines| ==> o == RedirectCheckout && session.cart == Some(entries)))
  {
    var cart := new Cart(session);
    var count := cart.Len();
    if count < 0 {
      return ServerError;
    }
    if count == 0 {
      return RedirectCart;
    }
    var subtotal := cart.GetTotalPrice();
    if !(isPost && FormValid(form)) {
      return ShowCheckout(subtotal, FormShipping, subtotal - 0.0 + FormShipping, PrefillName(user), PrefillEmail(user));
    }
    o := PlaceOrder(cart, catalogue, orders, items, user, form, now, t, suffix);
  }

  // ---------------------------------------------------------------- order_details

  /** `request.user != order.user and not request.user.is_staff` denies. An
      anonymous user equals no order's user and is never staff. */
  predicate CanViewOrder(u: User, owner: Option<nat>)
  {
    match u
    case Anonymous => false
    case Member(id, _, _, _, _, isStaff) => owner == Some(id) || isStaff
  }

  /** `order_details`. */
  function OrderDetails(orders: map<nat, OrderRow>, orderId: nat, u: User): Outcome
  {
    if orderId !in orders then NotFound
    else if CanViewOrder(u, orders[orderId].userId) then ShowOrder(orderId)
    else RedirectHome
  }

  /** An existing order is shown to its owner and to staff, and to no one
      else; in particular an order placed without an account is visible to
      staff only, and anonymous visitors see no order at all. */
  lemma OrderDetailsAccess(orders: map<nat, OrderRow>, orderId: nat, u: User)
    ensures orderId !in orders <==> OrderDetails(orders, orderId, u) == NotFound
    ensures OrderDetails(orders, orderId, u) == ShowOrder(orderId) <==>
      orderId in orders && u.Member? && (orders[orderId].userId == Some(u.id) || u.isStaff)
    ensures orderId in orders && orders[orderId].userId.None? ==>
      (OrderDetails(orders, orderId, u) == ShowOrder(orderId) <==> u.Member? && u.isStaff)
    ensures u.Anonymous? ==> OrderDetails(orders, orderId, u) != ShowOrder(orderId)
  {
  }
}
