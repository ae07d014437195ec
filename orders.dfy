/** Orders and order items of `store/models.py`: the order-number format, the
    `paid_at` bookkeeping of `Order.save` and `mark_as_paid`, the status tests,
    and `OrderItem`. Status, payment status and payment method are plain
    strings, as the CharFields store them: their choices are not enforced by
    `save`. */
module Orders {
  import opened Base
  import opened Text
  import opened Catalog
  import opened Db

  // ---------------------------------------------------------------- order numbers

  /** The local time `datetime.now()` reads, to the minute. */
  datatype Stamp = Stamp(year: nat, month: nat, day: nat, hour: nat, minute: nat)

  /** A calendar time with a four-digit year. */
  predicate ValidStamp(t: Stamp)
  {
    1000 <= t.year <= 9999 && 1 <= t.month <= 12 && 1 <= t.day <= 31 && t.hour < 24 && t.minute < 60
  }

  /** What `random.randint(100, 999)` can return (both ends included). */
  predicate IsSuffix(n: nat)
  {
    100 <= n <= 999
  }

  /** `strftime('%Y%m%d%H%M')`. */
  function Timestamp(t: Stamp): (s: string)
    ensures |s| == 12 && AllDigits(s)
  {
    Padded(t.year, 4) + Padded(t.month, 2) + Padded(t.day, 2) + Padded(t.hour, 2) + Padded(t.minute, 2)
  }

  /** `generate_order_number`, with the clock reading and the random draw as parameters. */
  function OrderNumber(t: Stamp, suffix: nat): (s: string)
    requires IsSuffix(suffix)
    ensures |s| == 18 && s[..3] == "ORD" && AllDigits(s[3..])
  {
    NatToStringIsPadded(suffix, 3);
    "ORD" + Timestamp(t) + NatToString(suffix)
  }

  /** Reads an order number back into its time and its random part. */
  function ParseOrderNumber(s: string): Option<(Stamp, nat)>
  {
    if |s| == 18 && s[..3] == "ORD" && AllDigits(s[3..]) then
      assert forall i, j :: 3 <= i <= j <= 18 ==> AllDigits(s[i..j]) by {
        forall i, j, k | 3 <= i <= j <= 18 && 0 <= k < j - i ensures IsDigit(s[i..j][k]) {
          assert s[i..j][k] == s[3..][i - 3 + k];
        }
      }
      Some((Stamp(DigitsValue(s[3..7]), DigitsValue(s[7..9]), DigitsValue(s[9..11]),
                  DigitsValue(s[11..13]), DigitsValue(s[13..15])), DigitsValue(s[15..18])))
    else None
  }

  /** Every generated number parses back to the minute and the draw it was made from. */
  lemma OrderNumberRoundTrip(t: Stamp, suffix: nat)
    requires ValidStamp(t) && IsSuffix(suffix)
    ensures ParseOrderNumber(OrderNumber(t, suffix)) == Some((t, suffix))
  {
    var s := OrderNumber(t, suffix);
    var ts := Timestamp(t);
    assert Pow10(2) == 100 && Pow10(3) == 1000 && Pow10(4) == 10000;
    NatToStringIsPadded(suffix, 3);
    assert s == "ORD" + ts + Padded(suffix, 3);
    assert s[3..15] == ts && s[15..18] == Padded(suffix, 3);
    assert s[3..7] == ts[0..4] == Padded(t.year, 4);
    assert s[7..9] == ts[4..6] == Padded(t.month, 2);
    assert s[9..11] == ts[6..8] == Padded(t.day, 2);
    assert s[11..13] == ts[8..10] == Padded(t.hour, 2);
    assert s[13..15] == ts[10..12] == Padded(t.minute, 2);
    PaddedValue(t.year, 4);
    PaddedValue(t.month, 2);
    PaddedValue(t.day, 2);
    PaddedValue(t.hour, 2);
    PaddedValue(t.minute, 2);
    PaddedValue(suffix, 3);
  }

  /** Two generated numbers coincide only when they were drawn in the same
      minute with the same random part. */
  lemma OrderNumberInjective(t1: Stamp, n1: nat, t2: Stamp, n2: nat)
    requires ValidStamp(t1) && IsSuffix(n1) && ValidStamp(t2) && IsSuffix(n2)
    ensures OrderNumber(t1, n1) == OrderNumber(t2, n2) <==> t1 == t2 && n1 == n2
  {
    OrderNumberRoundTrip(t1, n1);
    OrderNumberRoundTrip(t2, n2);
  }

  // ---------------------------------------------------------------- statuses

  const OrderStatusChoices: seq<(string, string)> :=
    [("pending", "Pending"), ("confirmed", "Confirmed"), ("shipped", "Shipped"),
     ("delivered", "Delivered"), ("cancelled", "Cancelled")]

  const PaymentStatusChoices: seq<(string, string)> :=
    [("pending", "Pending"), ("paid", "Paid"), ("failed", "Failed"), ("refunded", "Refunded")]

  const PaymentMethodChoices: seq<(string, string)> :=
    [("cash_on_delivery", "Cash on Delivery"), ("bkash", "bKash"), ("nagad", "Nagad"), ("rocket", "Rocket")]

  /** `Order.can_be_cancelled`. */
  predicate CanBeCancelled(status: string)
  {
    status in ["pending", "confirmed"]
  }

  /** `Order.is_paid`. */
  predicate IsPaid(paymentStatus: string)
  {
    paymentStatus == "paid"
  }

  /** Of the five order stages, only the two before shipping allow cancelling;
      a status outside the choices never does. */
  lemma CancellableStages()
    ensures forall i :: 0 <= i < |OrderStatusChoices| ==> (CanBeCancelled(OrderStatusChoices[i].0) <==> i < 2)
    ensures forall s :: CanBeCancelled(s) ==> exists i :: 0 <= i < |OrderStatusChoices| && OrderStatusChoices[i].0 == s
  {
    assert OrderStatusChoices[0].0 == "pending" && OrderStatusChoices[1].0 == "confirmed";
  }

  /** Of the four payment statuses only "paid" counts as paid, and a status
      outside the choices never does. */
  lemma PaidStatusChoice()
    ensures forall i :: 0 <= i < |PaymentStatusChoices| ==> (IsPaid(PaymentStatusChoices[i].0) <==> i == 1)
    ensures forall s :: IsPaid(s) ==> exists i :: 0 <= i < |PaymentStatusChoices| && PaymentStatusChoices[i].0 == s
  {
    assert PaymentStatusChoices[1].0 == "paid";
  }

  /** The dictionary inside `get_payment_method_display_name`. */
  const MethodLabels: map<string, string> :=
    map["cash_on_delivery" := "Cash on Delivery", "bkash" := "bKash", "nagad" := "Nagad", "rocket" := "Rocket"]

  /** `get_payment_method_display_name`: the label, or the stored code itself. */
  function PaymentMethodDisplayName(code: string): string
  {
    if code in MethodLabels then MethodLabels[code] else code
  }

  /** The hand-written dictionary agrees with the field's choices, and an
      unknown code is shown as it is stored. */
  lemma DisplayNameAgreesWithChoices(code: string)
    ensures forall i :: 0 <= i < |PaymentMethodChoices| ==>
      PaymentMethodDisplayName(PaymentMethodChoices[i].0) == PaymentMethodChoices[i].1
    ensures (forall i :: 0 <= i < |PaymentMethodChoices| ==> PaymentMethodChoices[i].0 != code) ==>
      PaymentMethodDisplayName(code) == code
  {
    if code in MethodLabels {
      var codes := ["cash_on_delivery", "bkash", "nagad", "rocket"];
      assert code in codes;
      var i :| 0 <= i < 4 && codes[i] == code;
      assert PaymentMethodChoices[i].0 == code;
    }
  }

  // ---------------------------------------------------------------- the Order row

  datatype Shipping = Shipping(
    fullName: string, email: string, phone: string, address: string, city: string,
    state: Option<string>, zipCode: Option<string>)

  /** The columns of an Order row that the store logic reads or writes. */
  datatype OrderRow = OrderRow(
    orderNumber: string,
    userId: Option<nat>,
    status: string,
    paymentStatus: string,
    paymentMethod: string,
    subtotal: real,
    discount: real,
    tax: real,
    shippingCost: real,
    total: real,
    paidAt: Option<int>,
    shipping: Shipping,
    transactionId: Option<string>,
    senderMobileNumber: Option<string>,
    notes: Option<string>)

  datatype SaveError = DoesNotExist | IntegrityError

  /** Whether another row already holds order number `n` (the UNIQUE index). */
  predicate NumberTaken(rows: map<nat, OrderRow>, pk: Option<nat>, n: string)
  {
    exists k :: k in rows && Some(k) != pk && rows[k].orderNumber == n
  }

  predicate UniqueNumbers(rows: map<nat, OrderRow>)
  {
    forall j, k :: j in rows && k in rows && j != k ==> rows[j].orderNumber != rows[k].orderNumber
  }

  /** The first step of `save`: an empty order number is generated, a set one is kept. */
  function WithNumber(row: OrderRow, t: Stamp, suffix: nat): OrderRow
    requires IsSuffix(suffix)
  {
    if row.orderNumber == "" then row.(orderNumber := OrderNumber(t, suffix)) else row
  }

  /** The `paid_at` rule of `save`. `stored` is the payment status of the row
      under the order's key when the key is truthy, and None for a new order. */
  function PaidAtOnSave(stored: Option<string>, status: string, paidAt: Option<int>, now: int): Option<int>
  {
    match stored
    case Some(was) => if was != "paid" && status == "paid" then Some(now) else paidAt
    case None => if status == "paid" && paidAt.None? then Some(now) else paidAt
  }

  /** `save` leaves `paid_at` alone unless the order is paid, and then only
      sets it to now: on the transition to paid for a stored order, or when a
      new paid order has none. An order stored as paid keeps its `paid_at`
      whatever its status becomes. */
  lemma PaidAtRules(stored: Option<string>, status: string, paidAt: Option<int>, now: int)
    ensures var r := PaidAtOnSave(stored, status, paidAt, now);
      && (r != paidAt ==> IsPaid(status) && r == Some(now))
      && (stored.Some? && !IsPaid(stored.value) && IsPaid(status) ==> r == Some(now))
      && (stored.Some? && IsPaid(stored.value) ==> r == paidAt)
      && (stored.None? ==> (r.Some? <==> paidAt.Some? || IsPaid(status)))
      && (!IsPaid(status) ==> r == paidAt)
  {
  }

  /** The order object and the table after one `save`. */
  datatype OrderSave = OrderSave(
    error: Option<SaveError>, row: OrderRow, pk: Option<nat>, rows: map<nat, OrderRow>, nextPk: nat)

  /** `Order.save` followed by Django's save. A truthy key whose row is gone
      raises DoesNotExist; a number another row holds raises IntegrityError;
      otherwise the row is written under its key, or inserted under a new one. */
  function OrderSaved(rows: map<nat, OrderRow>, nextPk: nat, pk: Option<nat>, row: OrderRow,
                      now: int, t: Stamp, suffix: nat): OrderSave
    requires IsSuffix(suffix)
  {
    var numbered := WithNumber(row, t, suffix);
    if HasPk(pk) && pk.value !in rows then
      OrderSave(Some(DoesNotExist), numbered, pk, rows, nextPk)
    else
      var stored := if HasPk(pk) then Some(rows[pk.value].paymentStatus) else None;
      var r := numbered.(paidAt := PaidAtOnSave(stored, numbered.paymentStatus, numbered.paidAt, now));
      if NumberTaken(rows, pk, r.orderNumber) then OrderSave(Some(IntegrityError), r, pk, rows, nextPk)
      else if pk.Some? then OrderSave(None, r, pk, rows[pk.value := r], Max(nextPk, pk.value + 1))
      else OrderSave(None, r, Some(nextPk), rows[nextPk := r], nextPk + 1)
  }

  /** What one save does to the table: a failed save changes nothing; a
      successful one writes exactly the saved row under the order's key (a
      new order gets a key no row had) and keeps every other row. Order
      numbers stay unique, and a generated number is never regenerated. */
  lemma SaveEffect(rows: map<nat, OrderRow>, nextPk: nat, pk: Option<nat>, row: OrderRow,
                   now: int, t: Stamp, suffix: nat)
    requires IsSuffix(suffix) && forall k :: k in rows ==> k < nextPk
    ensures var s := OrderSaved(rows, nextPk, pk, row, now, t, suffix);
      && (s.error.Some? ==> s.rows == rows && s.nextPk == nextPk && s.pk == pk)
      && (s.error.None? ==> s.pk.Some? && s.rows == rows[s.pk.value := s.row])
      && (s.error.None? && pk.None? ==> s.pk.value !in rows)
      && (forall k :: k in s.rows ==> k < s.nextPk)
      && (UniqueNumbers(rows) ==> UniqueNumbers(s.rows))
      && s.row.orderNumber != ""
      && (row.orderNumber != "" ==> s.row.orderNumber == row.orderNumber)
  {
    var s := OrderSaved(rows, nextPk, pk, row, now, t, suffix);
    if s.error.None? {
      assert !NumberTaken(rows, pk, s.row.orderNumber);
      var p := s.pk.value;
      forall j, k | j in s.rows && k in s.rows && j != k && UniqueNumbers(rows)
        ensures s.rows[j].orderNumber != s.rows[k].orderNumber
      {
        if j == p {
          assert Some(k) != pk;
        } else if k == p {
          assert Some(j) != pk;
        }
      }
    }
  }

  /** The in-memory part of `mark_as_paid`, before its `save`. */
  function Marked(row: OrderRow, now: int, transactionId: Option<string>, senderNumber: Option<string>): OrderRow
  {
    row.(paymentStatus := "paid", paidAt := Some(now),
         transactionId := if TruthyString(transactionId) then transactionId else row.transactionId,
         senderMobileNumber := if TruthyString(senderNumber) then senderNumber else row.senderMobileNumber)
  }

  /** `mark_as_paid` always leaves the order paid with `paid_at` at the time
      of the call, whatever it held before, so marking twice moves it; the
      payment details change only for truthy arguments. */
  lemma MarkAsPaidOverwritesPaidAt(rows: map<nat, OrderRow>, nextPk: nat, pk: Option<nat>, row: OrderRow,
                                   now: int, transactionId: Option<string>, senderNumber: Option<string>,
                                   t: Stamp, suffix: nat)
    requires IsSuffix(suffix)
    ensures var s := OrderSaved(rows, nextPk, pk, Marked(row, now, transactionId, senderNumber), now, t, suffix);
      && IsPaid(s.row.paymentStatus) && s.row.paidAt == Some(now)
      && (s.row.transactionId == if TruthyString(transactionId) then transactionId else row.transactionId)
      && (s.row.senderMobileNumber == if TruthyString(senderNumber) then senderNumber else row.senderMobileNumber)
      && s.row.status == row.status && s.row.total == row.total
  {
  }

  /** The `paid_at` of mark_as_paid depends only on the time of the call:
      marking an already marked order again at a later time changes it. */
  lemma MarkAsPaidTwice(rows: map<nat, OrderRow>, nextPk: nat, pk: Option<nat>, row: OrderRow,
                        now1: int, now2: int, t: Stamp, suffix: nat)
    requires IsSuffix(suffix) && now1 < now2
    ensures var once := Marked(row, now1, None, None);
      var twice := OrderSaved(rows, nextPk, pk, Marked(once, now2, None, None), now2, t, suffix);
      once.paidAt == Some(now1) && twice.row.paidAt == Some(now2) && twice.row.paidAt != once.paidAt
  {
  }

  /** An Order model instance. */
  class Order {
    var pk: Option<nat>
    var row: OrderRow

    constructor (row: OrderRow)
      ensures pk == None && this.row == row
    {
      pk := None;
      this.row := row;
    }

    /** `Order.save`, with the clock and the random draw as parameters. */
    method Save(table: Table<OrderRow>, now: int, t: Stamp, suffix: nat) returns (error: Option<SaveError>)
      requires table.Valid() && IsSuffix(suffix)
      modifies this, table
      ensures table.Valid()
      ensures var s := OrderSaved(old(table.rows), old(table.nextPk), old(pk), old(row), now, t, suffix);
        error == s.error && row == s.row && pk == s.pk && table.rows == s.rows && table.nextPk == s.nextPk
    {
      if row.orderNumber == "" {
        row := row.(orderNumber := OrderNumber(t, suffix));
      }
      if HasPk(pk) {
        if pk.value !in table.rows {
          return Some(DoesNotExist);
        }
        var original := table.rows[pk.value];
        if original.paymentStatus != "paid" && row.paymentStatus == "paid" {
          row := row.(paidAt := Some(now));
        }
      } else if row.paymentStatus == "paid" && row.paidAt.None? {
        row := row.(paidAt := Some(now));
      }
      if NumberTaken(table.rows, pk, row.orderNumber) {
        return Some(IntegrityError);
      }
      if pk.Some? {
        table.Put(pk.value, row);
      } else {
        var key := table.Insert(row);
        pk := Some(key);
      }
      error := None;
    }

    /** `mark_as_paid`: one clock reading serves both its own `paid_at` and the one `save` may set. */
    method MarkAsPaid(table: Table<OrderRow>, now: int, transactionId: Option<string>, senderNumber: Option<string>,
                      t: Stamp, suffix: nat) returns (error: Option<SaveError>)
      requires table.Valid() && IsSuffix(suffix)
      modifies this, table
      ensures table.Valid()
      ensures var s := OrderSaved(old(table.rows), old(table.nextPk), old(pk),
                                  Marked(old(row), now, transactionId, senderNumber), now, t, suffix);
        error == s.error && row == s.row && pk == s.pk && table.rows == s.rows && table.nextPk == s.nextPk
    {
      row := row.(paymentStatus := "paid", paidAt := Some(now));
      if TruthyString(transactionId) {
        row := row.(transactionId := transactionId);
      }
      if TruthyString(senderNumber) {
        row := row.(senderMobileNumber := senderNumber);
      }
      error := Save(table, now, t, suffix);
    }
  }

  // ---------------------------------------------------------------- order items

  datatype ItemRow = ItemRow(
    orderId: nat, productId: nat, productName: string, size: Option<string>, quantity: int, price: real)

  /** `OrderItem.total_price`: zero while price or quantity is unset. */
  function TotalPrice(price: Option<real>, quantity: Option<int>): real
  {
    if price.None? || quantity.None? then 0.0 else price.value * quantity.value as real
  }

  /** The item table after rows are inserted one by one with fresh AUTOINCREMENT keys. */
  function Appended(rows: map<nat, ItemRow>, nextPk: nat, added: seq<ItemRow>): map<nat, ItemRow>
  {
    if added == [] then rows
    else Appended(rows, nextPk, added[..|added| - 1])[nextPk + |added| - 1 := added[|added| - 1]]
  }

  /** Appending keeps every existing row and puts the `i`-th new row under
      key `nextPk + i`; nothing else is added. */
  lemma {:induction false} AppendedRows(rows: map<nat, ItemRow>, nextPk: nat, added: seq<ItemRow>)
    requires forall k :: k in rows ==> k < nextPk
    ensures var a := Appended(rows, nextPk, added);
      && (forall k :: k in rows ==> k in a && a[k] == rows[k])
      && (forall k :: nextPk <= k < nextPk + |added| ==> k in a && a[k] == added[k - nextPk])
      && (forall k :: k in a ==> k in rows || nextPk <= k < nextPk + |added|)
  {
    if added != [] {
      AppendedRows(rows, nextPk, added[..|added| - 1]);
    }
    forall k | nextPk <= k < nextPk + |added|
      ensures k in Appended(rows, nextPk, added) && Appended(rows, nextPk, added)[k] == added[k - nextPk]
    {
      AppendedAt(rows, nextPk, added, k);
    }
  }

  lemma {:induction false} AppendedAt(rows: map<nat, ItemRow>, nextPk: nat, added: seq<ItemRow>, k: nat)
    requires nextPk <= k < nextPk + |added|
    ensures k in Appended(rows, nextPk, added) && Appended(rows, nextPk, added)[k] == added[k - nextPk]
  {
    var init := added[..|added| - 1];
    if k < nextPk + |init| {
      AppendedAt(rows, nextPk, init, k);
      assert init[k - nextPk] == added[k - nextPk];
    }
  }

  /** An OrderItem model instance, with the Product it references. */
  class OrderItem {
    var pk: Option<nat>
    var orderId: nat
    var product: Product
    var productName: string
    var size: Option<string>
    var quantity: Option<int>
    var price: Option<real>

    constructor (orderId: nat, product: Product, productName: string, size: Option<string>,
                 quantity: Option<int>, price: Option<real>)
      ensures pk == None && this.orderId == orderId && this.product == product && this.productName == productName
      ensures this.size == size && this.quantity == quantity && this.price == price
    {
      pk := None;
      this.orderId := orderId;
      this.product := product;
      this.productName := productName;
      this.size := size;
      this.quantity := quantity;
      this.price := price;
    }

    /** `OrderItem.save`: an empty name is filled from the product; then the
        row is written. Quantity and price are NOT NULL columns and the
        quantity column of a PositiveIntegerField has a `>= 0` CHECK, so a
        missing value or a negative quantity raises IntegrityError. The
        `MinValueValidator(1)` is not consulted by `save`, so 0 is stored. */
    method Save(table: Table<ItemRow>) returns (error: Option<SaveError>)
      requires table.Valid()
      modifies this, table
      ensures table.Valid()
      ensures productName == if old(productName) == "" then product.name else old(productName)
      ensures product == old(product) && orderId == old(orderId) && size == old(size)
      ensures quantity == old(quantity) && price == old(price)
      ensures error.None? <==> quantity.Some? && price.Some? && quantity.value >= 0
      ensures error.Some? ==> error == Some(IntegrityError) && pk == old(pk)
                              && table.rows == old(table.rows) && table.nextPk == old(table.nextPk)
      ensures error.None? ==> pk == (if old(pk).Some? then old(pk) else Some(old(table.nextPk)))
      ensures error.None? ==>
        table.rows == old(table.rows)[pk.value := ItemRow(orderId, product.id, productName, size, quantity.value, price.value)]
      ensures error.None? && old(pk).None? ==> table.nextPk == old(table.nextPk) + 1
    {
      if productName == "" {
        productName := product.name;
      }
      if quantity.None? || price.None? || quantity.value < 0 {
        return Some(IntegrityError);
      }
      var row := ItemRow(orderId, product.id, productName, size, quantity.value, price.value);
      if pk.Some? {
        table.Put(pk.value, row);
      } else {
        var key := table.Insert(row);
        pk := Some(key);
      }
      error := None;
    }
  }
}
