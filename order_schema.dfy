/** The unified order data model shared by checkout and the order console:
    order ids, cart-item normalisation, pricing, order construction,
    validation and the status-transition table. */
module OrderSchema {
  import opened Js
  import opened Text
  import opened Seqs
  import D = Dict

  // ---------------------------------------------------------------------------
  // Order id: VEE-YYYYMMDD-HHMMSS-RRR

  /** What the `Date` getters report for the current local time (month is 0-based). */
  datatype LocalTime = LocalTime(year: int, month0: int, day: int, hours: int, minutes: int, seconds: int)

  /** The ranges the `Date` getters guarantee. */
  predicate ValidLocalTime(t: LocalTime) {
    0 <= t.month0 <= 11 && 1 <= t.day <= 31 && 0 <= t.hours <= 23
    && 0 <= t.minutes <= 59 && 0 <= t.seconds <= 59
  }

  /** `n.toString().padStart(2, '0')`. */
  function Pad2(n: nat): string {
    PadStart(NatToString(n), 2, '0')
  }

  /** `Math.floor(Math.random() * 1000)` for a random draw `rand` in [0, 1). */
  function RandomSuffix(rand: real): (r: int)
    requires 0.0 <= rand < 1.0
    ensures 0 <= r <= 999
  {
    (rand * 1000.0).Floor
  }

  /** YYYYMMDD: the year, then the 1-based month and the day, two digits each. */
  function DatePart(t: LocalTime): string
    requires ValidLocalTime(t)
  {
    IntToString(t.year) + Pad2(t.month0 + 1) + Pad2(t.day)
  }

  /** HHMMSS. */
  function TimePart(t: LocalTime): string
    requires ValidLocalTime(t)
  {
    Pad2(t.hours) + Pad2(t.minutes) + Pad2(t.seconds)
  }

  /** The random suffix, three digits. */
  function RandomPart(rand: real): string
    requires 0.0 <= rand < 1.0
  {
    PadStart(NatToString(RandomSuffix(rand)), 3, '0')
  }

  /** `generateOrderId`, with the clock reading and the random draw passed in.
      Whatever the width of the year, the id starts `VEE-` and its last eleven
      characters are a dash, the six-digit time field, a dash and the
      three-digit random field. */
  function GenerateOrderId(t: LocalTime, rand: real): (r: string)
    requires ValidLocalTime(t) && 0.0 <= rand < 1.0
    ensures |r| >= 15 && r[..4] == "VEE-"
    ensures r[|r| - 11] == '-' && r[|r| - 4] == '-'
    ensures r[|r| - 10..|r| - 4] == TimePart(t)
    ensures r[|r| - 3..] == RandomPart(rand)
  {
    var d, h, x := DatePart(t), TimePart(t), RandomPart(rand);
    TimePartShape(t);
    RandomPartShape(rand);
    IdFields("VEE-", d, h, x);
    "VEE-" + d + "-" + h + "-" + x
  }

  /** The fields of `prefix + date + "-" + time + "-" + random` seen from both ends. */
  lemma IdFields(prefix: string, date: string, time: string, random: string)
    requires |prefix| == 4 && |time| == 6 && |random| == 3
    ensures var r := prefix + date + "-" + time + "-" + random;
      && |r| >= 15 && r[..4] == prefix
      && r[|r| - 11] == '-' && r[|r| - 4] == '-'
      && r[|r| - 10..|r| - 4] == time && r[|r| - 3..] == random
  {
    var tail := "-" + time + "-" + random;
    var r := prefix + date + tail;
    assert r == prefix + date + "-" + time + "-" + random;
    assert r[..4] == prefix;
    assert r[|r| - 10..|r| - 4] == tail[1..7] == time;
    assert r[|r| - 3..] == tail[8..] == random;
  }

  lemma Pad2Numeral(n: nat)
    requires n < 100
    ensures |Pad2(n)| == 2 && IsDigits(Pad2(n)) && DigitsValue(Pad2(n)) == n
  {
    NatToStringLength(n);
    PaddedNumeral(n, 2);
  }

  /** The pieces of `a + b + c` can be sliced back out. */
  lemma Concat3(a: string, b: string, c: string)
    ensures (a + b + c)[..|a|] == a
    ensures (a + b + c)[|a|..|a| + |b|] == b
    ensures (a + b + c)[|a| + |b|..] == c
  {
  }

  lemma DigitsConcat3(a: string, b: string, c: string)
    requires IsDigits(a) && IsDigits(b) && IsDigits(c)
    ensures IsDigits(a + b + c)
  {
    var s := a + b + c;
    forall i | 0 <= i < |s| ensures IsDigit(s[i]) {
      if i < |a| { assert s[i] == a[i]; }
      else if i < |a| + |b| { assert s[i] == b[i - |a|]; }
      else { assert s[i] == c[i - |a| - |b|]; }
    }
  }

  lemma DatePartShape(t: LocalTime)
    requires ValidLocalTime(t) && 1000 <= t.year <= 9999
    ensures var d := DatePart(t);
      && |d| == 8 && IsDigits(d)
      && DigitsValue(d[..4]) == t.year
      && DigitsValue(d[4..6]) == t.month0 + 1
      && DigitsValue(d[6..]) == t.day
  {
    NatToStringLength(t.year);
    NatToStringValue(t.year);
    Pad2Numeral(t.month0 + 1);
    Pad2Numeral(t.day);
    Concat3(IntToString(t.year), Pad2(t.month0 + 1), Pad2(t.day));
    DigitsConcat3(IntToString(t.year), Pad2(t.month0 + 1), Pad2(t.day));
  }

  lemma TimePartShape(t: LocalTime)
    requires ValidLocalTime(t)
    ensures var h := TimePart(t);
      && |h| == 6 && IsDigits(h)
      && DigitsValue(h[..2]) == t.hours
      && DigitsValue(h[2..4]) == t.minutes
      && DigitsValue(h[4..]) == t.seconds
  {
    Pad2Numeral(t.hours);
    Pad2Numeral(t.minutes);
    Pad2Numeral(t.seconds);
    Concat3(Pad2(t.hours), Pad2(t.minutes), Pad2(t.seconds));
    DigitsConcat3(Pad2(t.hours), Pad2(t.minutes), Pad2(t.seconds));
  }

  lemma RandomPartShape(rand: real)
    requires 0.0 <= rand < 1.0
    ensures var r := RandomPart(rand);
      |r| == 3 && IsDigits(r) && DigitsValue(r) == RandomSuffix(rand)
  {
    NatToStringLength(RandomSuffix(rand));
    PaddedNumeral(RandomSuffix(rand), 3);
  }

  /** The id splits at fixed offsets into its prefix, date, time and random part. */
  lemma OrderIdParts(t: LocalTime, rand: real)
    requires ValidLocalTime(t) && 0.0 <= rand < 1.0
    requires |DatePart(t)| == 8 && |TimePart(t)| == 6 && |RandomPart(rand)| == 3
    ensures var id := GenerateOrderId(t, rand);
      && |id| == 23 && id[..4] == "VEE-" && id[12] == '-' && id[19] == '-'
      && id[4..12] == DatePart(t) && id[13..19] == TimePart(t) && id[20..] == RandomPart(rand)
  {
    var id := GenerateOrderId(t, rand);
    var d, h, r := DatePart(t), TimePart(t), RandomPart(rand);
    assert id == ("VEE-" + d) + ("-" + h) + ("-" + r);
    Concat3("VEE-" + d, "-" + h, "-" + r);
    assert ("VEE-" + d)[4..] == d;
    assert ("-" + h)[1..] == h;
    assert ("-" + r)[1..] == r;
  }

  /** For a four-digit year the id has the fixed shape VEE-YYYYMMDD-HHMMSS-RRR:
      23 characters, dashes at 3, 12 and 19, and digits everywhere else. */
  lemma OrderIdShape(t: LocalTime, rand: real)
    requires ValidLocalTime(t) && 0.0 <= rand < 1.0
    requires 1000 <= t.year <= 9999
    ensures var id := GenerateOrderId(t, rand);
      && |id| == 23
      && id[..4] == "VEE-" && id[3] == '-' && id[12] == '-' && id[19] == '-'
      && IsDigits(id[4..12]) && IsDigits(id[13..19]) && IsDigits(id[20..])
  {
    DatePartShape(t);
    TimePartShape(t);
    RandomPartShape(rand);
    OrderIdParts(t, rand);
  }

  /** The date field of the id reads back as the year, the 1-based month and the day. */
  lemma OrderIdDate(t: LocalTime, rand: real)
    requires ValidLocalTime(t) && 0.0 <= rand < 1.0
    requires 1000 <= t.year <= 9999
    ensures var id := GenerateOrderId(t, rand);
      && |id| == 23
      && IsDigits(id[4..8]) && DigitsValue(id[4..8]) == t.year
      && IsDigits(id[8..10]) && DigitsValue(id[8..10]) == t.month0 + 1
      && IsDigits(id[10..12]) && DigitsValue(id[10..12]) == t.day
  {
    DatePartShape(t);
    TimePartShape(t);
    RandomPartShape(rand);
    OrderIdParts(t, rand);
    var id := GenerateOrderId(t, rand);
    var d := DatePart(t);
    SliceOfSlice(id, 4, 12, 0, 4);
    SliceOfSlice(id, 4, 12, 4, 6);
    SliceOfSlice(id, 4, 12, 6, 8);
    assert d[..4] == d[0..4] && d[6..] == d[6..8];
  }

  /** The time field of the id reads back as hours, minutes and seconds. */
  lemma OrderIdTime(t: LocalTime, rand: real)
    requires ValidLocalTime(t) && 0.0 <= rand < 1.0
    requires 1000 <= t.year <= 9999
    ensures var id := GenerateOrderId(t, rand);
      && |id| == 23
      && IsDigits(id[13..15]) && DigitsValue(id[13..15]) == t.hours
      && IsDigits(id[15..17]) && DigitsValue(id[15..17]) == t.minutes
      && IsDigits(id[17..19]) && DigitsValue(id[17..19]) == t.seconds
  {
    DatePartShape(t);
    TimePartShape(t);
    RandomPartShape(rand);
    OrderIdParts(t, rand);
    var id := GenerateOrderId(t, rand);
    var h := TimePart(t);
    SliceOfSlice(id, 13, 19, 0, 2);
    SliceOfSlice(id, 13, 19, 2, 4);
    SliceOfSlice(id, 13, 19, 4, 6);
    assert h[..2] == h[0..2] && h[4..] == h[4..6];
  }

  /** The last field of the id reads back as the random suffix, 0 to 999. */
  lemma OrderIdRandom(t: LocalTime, rand: real)
    requires ValidLocalTime(t) && 0.0 <= rand < 1.0
    requires 1000 <= t.year <= 9999
    ensures var id := GenerateOrderId(t, rand);
      && |id| == 23 && IsDigits(id[20..])
      && DigitsValue(id[20..]) == RandomSuffix(rand) && DigitsValue(id[20..]) <= 999
  {
    DatePartShape(t);
    TimePartShape(t);
    RandomPartShape(rand);
    OrderIdParts(t, rand);
  }

  lemma SliceOfSlice(s: string, a: nat, b: nat, i: nat, j: nat)
    requires a <= b <= |s| && i <= j <= b - a
    ensures s[a..b][i..j] == s[a + i..a + j]
  {
    forall k | 0 <= k < j - i ensures s[a..b][i..j][k] == s[a + i..a + j][k] {
      assert s[a..b][i..j][k] == s[a..b][i + k] == s[a + i + k];
    }
  }

  // ---------------------------------------------------------------------------
  // Cart items and order items

  /** A cart item as callers hand it over: some use `quantity`, others `qty`;
      some `unitPrice`, others `price`. Absent fields are None. */
  datatype CartItem = CartItem(
    id: Option<string>, productId: Option<string>, name: Option<string>,
    quantity: Option<real>, qty: Option<real>,
    unitPrice: Option<real>, price: Option<real>,
    discount: Option<real>)

  /** The canonical order line stored with an order. */
  datatype OrderItem = OrderItem(
    productId: string, name: string, quantity: real, unitPrice: real,
    discount: real, finalPrice: real, total: real)

  /** One element of `processOrderItems`. */
  function ProcessItem(item: CartItem): (r: OrderItem)
    ensures r.quantity != 0.0
    ensures r.finalPrice >= 0.0 && r.finalPrice >= r.unitPrice - r.discount
    ensures r.finalPrice == 0.0 || r.finalPrice == r.unitPrice - r.discount
    ensures r.unitPrice >= 0.0 && r.discount >= 0.0 ==> r.finalPrice <= r.unitPrice
    ensures r.total == r.quantity * r.finalPrice
  {
    var quantity := OrNum(item.quantity, OrNum(item.qty, 1.0));
    var unitPrice := OrNum(item.unitPrice, OrNum(item.price, 0.0));
    var discount := OrNum(item.discount, 0.0);
    var finalPrice := MaxReal(0.0, unitPrice - discount);
    OrderItem(
      OrStr(item.id, OrStr(item.productId, "")), OrStr(item.name, ""),
      quantity, unitPrice, discount, finalPrice, quantity * finalPrice)
  }

  /** Field precedence of the normalisation: a field that is absent, zero or
      empty falls through to the next option. */
  lemma ProcessItemDefaults(item: CartItem)
    ensures var r := ProcessItem(item);
      && (TruthyNum(item.quantity) ==> r.quantity == item.quantity.value)
      && (!TruthyNum(item.quantity) && TruthyNum(item.qty) ==> r.quantity == item.qty.value)
      && (!TruthyNum(item.quantity) && !TruthyNum(item.qty) ==> r.quantity == 1.0)
      && (TruthyNum(item.unitPrice) ==> r.unitPrice == item.unitPrice.value)
      && (!TruthyNum(item.unitPrice) && TruthyNum(item.price) ==> r.unitPrice == item.price.value)
      && (!TruthyNum(item.unitPrice) && !TruthyNum(item.price) ==> r.unitPrice == 0.0)
      && (TruthyNum(item.discount) ==> r.discount == item.discount.value)
      && (!TruthyNum(item.discount) ==> r.discount == 0.0)
      && (TruthyStr(item.id) ==> r.productId == item.id.value)
      && (!TruthyStr(item.id) && TruthyStr(item.productId) ==> r.productId == item.productId.value)
      && (!TruthyStr(item.id) && !TruthyStr(item.productId) ==> r.productId == "")
      && (r.name == if TruthyStr(item.name) then item.name.value else "")
  {
  }

  /** `processOrderItems`: item by item, same length, same order. */
  function ProcessOrderItems(raw: seq<CartItem>): (r: seq<OrderItem>)
    ensures |r| == |raw|
    ensures forall i :: 0 <= i < |raw| ==> r[i] == ProcessItem(raw[i])
  {
    if raw == [] then [] else [ProcessItem(raw[0])] + ProcessOrderItems(raw[1..])
  }

  // ---------------------------------------------------------------------------
  // Pricing

  datatype Totals = Totals(total: real, netAmount: real, totalAmount: real)

  function ItemTotal(item: OrderItem): real {
    item.total
  }

  /** `calculateOrderTotals`. */
  function CalculateOrderTotals(items: seq<OrderItem>, overallDiscount: real): (r: Totals)
    ensures r.netAmount >= 0.0 && r.netAmount >= r.total - overallDiscount
    ensures r.netAmount == 0.0 || r.netAmount == r.total - overallDiscount
    ensures r.totalAmount == r.netAmount
  {
    var total := SumOf(items, ItemTotal);
    var netAmount := MaxReal(0.0, total - overallDiscount);
    Totals(total, netAmount, netAmount)
  }

  /** The line total of a cart item as the order will store it:
      quantity × max(0, unitPrice − discount), with the defaults applied. */
  function LineTotal(item: CartItem): real {
    var q := OrNum(item.quantity, OrNum(item.qty, 1.0));
    var u := OrNum(item.unitPrice, OrNum(item.price, 0.0));
    q * MaxReal(0.0, u - OrNum(item.discount, 0.0))
  }

  /** The order total is the sum over the cart of quantity × max(0, unitPrice − discount). */
  lemma OrderTotalFormula(cart: seq<CartItem>, overallDiscount: real)
    ensures CalculateOrderTotals(ProcessOrderItems(cart), overallDiscount).total == SumOf(cart, LineTotal)
  {
    var items := ProcessOrderItems(cart);
    SumOfCongruent(items, ItemTotal, cart, LineTotal);
  }

  // ---------------------------------------------------------------------------
  // Order construction

  datatype Timestamp = ServerTime | AtMillis(ms: int)

  /** The customer form as handed to `createOrderObject`. */
  datatype ClientData = ClientData(
    name: Option<string>, customerName: Option<string>, phone: Option<string>,
    email: Option<string>, address: Option<string>, place: Option<string>)

  /** The `options` argument; `paymentType` is the source's `type` field. */
  datatype OrderOptions = OrderOptions(
    discount: Option<real>, status: Option<string>, transport: Option<string>,
    paymentType: Option<string>, deliveryDate: Option<Timestamp>)

  /** The order document; `paymentType` is the source's `type` field and
      `date` holds the server-timestamp sentinel until the store resolves it. */
  datatype Order = Order(
    orderId: string, customerName: string, phone: string, email: string,
    address: string, place: string, date: Timestamp, deliveryDate: Timestamp,
    status: string, deliveryStatus: string, transport: string, paymentType: string,
    discount: real, total: real, netAmount: real, totalAmount: real,
    items: seq<OrderItem>)

  const ThreeDaysMs: int := 3 * 24 * 60 * 60 * 1000

  /** `createOrderObject`. The clock (`now` for the id, `nowMs` for `Date.now()`)
      and the random draw are parameters. */
  function CreateOrderObject(client: ClientData, cart: seq<CartItem>, options: OrderOptions,
                             now: LocalTime, nowMs: int, rand: real): (o: Order)
    requires ValidLocalTime(now) && 0.0 <= rand < 1.0
    ensures o.orderId != "" && o.date == ServerTime
    ensures o.items == ProcessOrderItems(cart)
    ensures o.deliveryStatus == o.status
    ensures o.totalAmount == o.netAmount && o.netAmount >= 0.0
    ensures o.netAmount == MaxReal(0.0, o.total - o.discount)
  {
    var processedItems := ProcessOrderItems(cart);
    var overallDiscount := OrNum(options.discount, 0.0);
    var totals := CalculateOrderTotals(processedItems, overallDiscount);
    var deliveryDate := if options.deliveryDate.Some? then options.deliveryDate.value
                        else AtMillis(nowMs + ThreeDaysMs);
    var status := OrStr(options.status, "Pending");
    Order(
      GenerateOrderId(now, rand),
      OrStr(client.name, OrStr(client.customerName, "")),
      OrStr(client.phone, ""), OrStr(client.email, ""),
      OrStr(client.address, ""), OrStr(client.place, ""),
      ServerTime, deliveryDate,
      status, status,
      OrStr(options.transport, ""), OrStr(options.paymentType, "TO-PAY"),
      overallDiscount, totals.total, totals.netAmount, totals.totalAmount,
      processedItems)
  }

  /** The wiring of `createOrderObject`: totals come from the processed items,
      and status, type, transport, discount and delivery date take their
      defaults when the option is absent or empty. */
  lemma CreateOrderDefaults(client: ClientData, cart: seq<CartItem>, options: OrderOptions,
                            now: LocalTime, nowMs: int, rand: real)
    requires ValidLocalTime(now) && 0.0 <= rand < 1.0
    ensures var o := CreateOrderObject(client, cart, options, now, nowMs, rand);
      var t := CalculateOrderTotals(ProcessOrderItems(cart), o.discount);
      && o.orderId == GenerateOrderId(now, rand)
      && o.total == t.total && o.netAmount == t.netAmount && o.totalAmount == t.totalAmount
      && o.total == SumOf(cart, LineTotal)
      && (!TruthyStr(options.status) ==> o.status == "Pending")
      && (TruthyStr(options.status) ==> o.status == options.status.value)
      && (!TruthyStr(options.paymentType) ==> o.paymentType == "TO-PAY")
      && (!TruthyStr(options.transport) ==> o.transport == "")
      && (!TruthyNum(options.discount) ==> o.discount == 0.0)
      && (options.deliveryDate.None? ==> o.deliveryDate == AtMillis(nowMs + ThreeDaysMs))
  {
    OrderTotalFormula(cart, OrNum(options.discount, 0.0));
  }

  // ---------------------------------------------------------------------------
  // Validation

  /** `/\S+@\S+\.\S+/.test(s)`, stated by the shortest match: an `@` with a
      non-space before it, then a `.` at least two places later with a
      non-space after it, and no whitespace from the character before `@` to
      the one after `.`. */
  predicate LooseEmail(s: string) {
    exists p, q | 1 <= p < q < |s| - 1 ::
      p + 1 < q && s[p] == '@' && s[q] == '.' && NoWhitespace(s[p - 1..q + 2])
  }

  /** The regular expression itself: `s` contains X@Y.Z with X, Y and Z
      non-empty runs of non-whitespace. */
  ghost predicate LooseEmailRegex(s: string) {
    exists x: string, y: string, z: string ::
      x != "" && y != "" && z != "" && NoWhitespace(x) && NoWhitespace(y) && NoWhitespace(z)
      && Contains(s, x + "@" + y + "." + z)
  }

  /** The text between the character before `@` and the one after `.`,
      taken apart at the two marks. */
  lemma WindowParts(s: string, p: nat, q: nat)
    requires 1 <= p && p + 1 < q < |s| - 1 && s[p] == '@' && s[q] == '.'
    ensures s[p - 1..q + 2] == [s[p - 1]] + "@" + s[p + 1..q] + "." + [s[q + 1]]
  {
    var w, v := s[p - 1..q + 2], [s[p - 1]] + "@" + s[p + 1..q] + "." + [s[q + 1]];
    assert |v| == |w|;
    forall j | 0 <= j < |w| ensures w[j] == v[j] {
      assert w[j] == s[p - 1 + j];
      if 1 < j < |w| - 2 {
        assert v[j] == s[p + 1..q][j - 2];
      }
    }
  }

  /** No whitespace in X@Y.Z means none in X, Y or Z. */
  lemma NoWhitespaceParts(x: string, y: string, z: string)
    ensures NoWhitespace(x + "@" + y + "." + z) <==> NoWhitespace(x) && NoWhitespace(y) && NoWhitespace(z)
  {
    NoWhitespaceAppend(x + "@" + y + ".", z);
    NoWhitespaceAppend(x + "@" + y, ".");
    NoWhitespaceAppend(x + "@", y);
    NoWhitespaceAppend(x, "@");
  }

  /** The shortest match is an occurrence of X@Y.Z with one-character X and Z. */
  lemma LooseEmailMatches(s: string)
    requires LooseEmail(s)
    ensures LooseEmailRegex(s)
  {
    var p, q :| 1 <= p < q < |s| - 1 && p + 1 < q && s[p] == '@' && s[q] == '.'
                && NoWhitespace(s[p - 1..q + 2]);
    var x, y, z := [s[p - 1]], s[p + 1..q], [s[q + 1]];
    WindowParts(s, p, q);
    NoWhitespaceParts(x, y, z);
    var w := x + "@" + y + "." + z;
    assert OccursAt(s, w, p - 1);
    ContainsIff(s, w);
  }

  /** An occurrence in `s` of a whitespace-free `w` with an '@' at `m` and a
      later '.' at `n`, apart and away from both ends, gives a shortest match. */
  lemma LooseEmailAt(s: string, w: string, i: nat, m: nat, n: nat)
    requires OccursAt(s, w, i) && NoWhitespace(w)
    requires 1 <= m && m + 1 < n < |w| - 1 && w[m] == '@' && w[n] == '.'
    ensures LooseEmail(s)
  {
    var p, q := i + m, i + n;
    assert s[p] == '@' by {
      assert s[p] == s[i..i + |w|][m];
    }
    assert s[q] == '.' by {
      assert s[q] == s[i..i + |w|][n];
    }
    NoWhitespaceSlice(w, m - 1, n + 2);
    OccurrenceSlice(s, w, i, p - 1, q + 2);
    assert NoWhitespace(s[p - 1..q + 2]);
  }

  /** Any occurrence of X@Y.Z contains a shortest match around its `@` and `.`. */
  lemma LooseEmailFromMatch(s: string, x: string, y: string, z: string)
    requires x != "" && y != "" && z != ""
    requires NoWhitespace(x) && NoWhitespace(y) && NoWhitespace(z)
    requires Contains(s, x + "@" + y + "." + z)
    ensures LooseEmail(s)
  {
    var w := x + "@" + y + "." + z;
    ContainsIff(s, w);
    var i :| OccursAt(s, w, i);
    NoWhitespaceParts(x, y, z);
    var m, n := |x|, |x| + 1 + |y|;
    assert w[m] == '@' && w[n] == '.';
    LooseEmailAt(s, w, i, m, n);
  }

  lemma LooseEmailIff(s: string)
    ensures LooseEmail(s) <==> LooseEmailRegex(s)
  {
    if LooseEmail(s) {
      LooseEmailMatches(s);
    }
    if LooseEmailRegex(s) {
      var x: string, y: string, z: string :|
        x != "" && y != "" && z != "" && NoWhitespace(x) && NoWhitespace(y) && NoWhitespace(z)
        && Contains(s, x + "@" + y + "." + z);
      LooseEmailFromMatch(s, x, y, z);
    }
  }

  const MsgOrderId := "Order ID is required"
  const MsgCustomerName := "Customer name is required"
  const MsgPhone := "Valid 10-digit phone number is required"
  const MsgEmail := "Valid email address is required"
  const MsgNoItems := "At least one item is required"
  /** Written in two pieces only so that the verifier can index the literal. */
  const MsgStatus := "Invalid status. Must be one of: " + "Pending, Dispatched, Delivered"
  const MsgType := "Invalid type. Must be either TO-PAY or PAID"
  const MsgDiscount := "Discount cannot be negative"
  const MsgTotal := "Total cannot be negative"
  const MsgNetAmount := "Net amount cannot be negative"
  const MsgTotalAmount := "Total amount cannot be negative"

  const ItemProductIdText := "Product ID is required"
  const ItemNameText := "Product name is required"
  const ItemQuantityText := "Valid quantity is required"
  const ItemPriceText := "Unit price cannot be negative"

  /** `Item ${index + 1}: ${text}`. */
  function ItemMessage(index: nat, text: string): string {
    "Item " + NatToString(index + 1) + ": " + text
  }

  predicate IsItemMessage(e: string) {
    |e| >= 5 && e[..5] == "Item "
  }

  /** The lengths of the required-field messages. */
  lemma HeaderLengths()
    ensures |MsgOrderId| == 20 && |MsgCustomerName| == 25 && |MsgPhone| == 39 && |MsgEmail| == 31
  {
  }

  /** The lengths of the status, type and amount messages. */
  lemma TrailerLengths()
    ensures |MsgStatus| == 62 && |MsgType| == 43 && |MsgDiscount| == 27
    ensures |MsgTotal| == 24 && |MsgNetAmount| == 29 && |MsgTotalAmount| == 31
  {
  }

  /** Where two order-level messages have the same length, their first
      characters differ. */
  lemma SameLengthMessages()
    ensures |MsgNoItems| == 29 && MsgNoItems[0] == 'A' && MsgNetAmount[0] == 'N'
    ensures MsgEmail[0] == 'V' && MsgTotalAmount[0] == 'T'
  {
  }

  /** No required-field message, and not the items message, starts like an
      item message. */
  lemma HeaderNotItemMessages()
    ensures !IsItemMessage(MsgOrderId) && !IsItemMessage(MsgCustomerName)
    ensures !IsItemMessage(MsgPhone) && !IsItemMessage(MsgEmail) && !IsItemMessage(MsgNoItems)
  {
    assert MsgOrderId[0] == 'O' && MsgCustomerName[0] == 'C' && MsgPhone[0] == 'V';
    assert MsgEmail[0] == 'V' && MsgNoItems[0] == 'A';
  }

  /** No status, type or amount message starts like an item message. */
  lemma TrailerNotItemMessages()
    ensures !IsItemMessage(MsgStatus) && !IsItemMessage(MsgType) && !IsItemMessage(MsgDiscount)
    ensures !IsItemMessage(MsgTotal) && !IsItemMessage(MsgNetAmount) && !IsItemMessage(MsgTotalAmount)
  {
    assert MsgStatus[1] == 'n' && MsgType[1] == 'n';
    assert MsgDiscount[0] == 'D' && MsgTotal[0] == 'T';
    assert MsgNetAmount[0] == 'N' && MsgTotalAmount[0] == 'T';
  }

  predicate PhoneOk(phone: string) { phone != "" && IsTenDigits(phone) }
  predicate EmailOk(email: string) { email != "" && LooseEmail(email) }
  predicate IsKnownStatus(s: string) { s == "Pending" || s == "Dispatched" || s == "Delivered" }
  predicate IsKnownType(s: string) { s == "TO-PAY" || s == "PAID" }
  /** Status and type are checked only when present. */
  predicate StatusOk(s: string) { s == "" || IsKnownStatus(s) }
  predicate TypeOk(s: string) { s == "" || IsKnownType(s) }

  predicate ItemProductIdOk(item: OrderItem) { item.productId != "" }
  predicate ItemNameOk(item: OrderItem) { item.name != "" }
  /** `!item.quantity || item.quantity <= 0` fails exactly the non-positive quantities. */
  predicate ItemQuantityOk(item: OrderItem) { item.quantity > 0.0 }
  predicate ItemPriceOk(item: OrderItem) { item.unitPrice >= 0.0 }
  predicate ItemOk(item: OrderItem) {
    ItemProductIdOk(item) && ItemNameOk(item) && ItemQuantityOk(item) && ItemPriceOk(item)
  }

  function When(failed: bool, msg: string): seq<string> {
    if failed then [msg] else []
  }

  /** The messages one item contributes, in the order the checks run. */
  function ItemErrors(item: OrderItem, index: nat): seq<string> {
    When(!ItemProductIdOk(item), ItemMessage(index, ItemProductIdText))
    + When(!ItemNameOk(item), ItemMessage(index, ItemNameText))
    + When(!ItemQuantityOk(item), ItemMessage(index, ItemQuantityText))
    + When(!ItemPriceOk(item), ItemMessage(index, ItemPriceText))
  }

  /** The messages of all items, item by item. */
  function ItemsErrors(items: seq<OrderItem>): seq<string> {
    if items == [] then []
    else ItemsErrors(items[..|items| - 1]) + ItemErrors(items[|items| - 1], |items| - 1)
  }

  /** One more item appends that item's messages. */
  lemma ItemsErrorsSnoc(items: seq<OrderItem>, i: nat)
    requires i < |items|
    ensures ItemsErrors(items[..i + 1]) == ItemsErrors(items[..i]) + ItemErrors(items[i], i)
  {
    assert items[..i + 1][..i] == items[..i];
  }

  function HeaderErrors(o: Order): seq<string> {
    When(o.orderId == "", MsgOrderId)
    + When(o.customerName == "", MsgCustomerName)
    + When(!PhoneOk(o.phone), MsgPhone)
    + When(!EmailOk(o.email), MsgEmail)
  }

  function TrailerErrors(o: Order): seq<string> {
    When(!StatusOk(o.status), MsgStatus)
    + When(!TypeOk(o.paymentType), MsgType)
    + When(o.discount < 0.0, MsgDiscount)
    + When(o.total < 0.0, MsgTotal)
    + When(o.netAmount < 0.0, MsgNetAmount)
    + When(o.totalAmount < 0.0, MsgTotalAmount)
  }

  /** Every message `validateOrder` collects, in order. */
  function OrderErrors(o: Order): seq<string> {
    HeaderErrors(o)
    + (if o.items == [] then [MsgNoItems] else ItemsErrors(o.items))
    + TrailerErrors(o)
  }

  datatype Validation = Validation(isValid: bool, errors: seq<string>)

  /** The `forEach` callback of `validateOrder` for the item at `index`. */
  method ValidateItem(item: OrderItem, index: nat) returns (mine: seq<string>)
    ensures mine == ItemErrors(item, index)
  {
    mine := [];
    if item.productId == "" { mine := mine + [ItemMessage(index, ItemProductIdText)]; }
    if item.name == "" { mine := mine + [ItemMessage(index, ItemNameText)]; }
    if item.quantity == 0.0 || item.quantity <= 0.0 { mine := mine + [ItemMessage(index, ItemQuantityText)]; }
    if item.unitPrice < 0.0 { mine := mine + [ItemMessage(index, ItemPriceText)]; }
  }

  /** The required-field checks of `validateOrder`. */
  method CheckRequiredFields(o: Order) returns (errors: seq<string>)
    ensures errors == HeaderErrors(o)
  {
    errors := [];
    if o.orderId == "" { errors := errors + [MsgOrderId]; }
    if o.customerName == "" { errors := errors + [MsgCustomerName]; }
    if o.phone == "" || !IsTenDigits(o.phone) { errors := errors + [MsgPhone]; }
    if o.email == "" || !LooseEmail(o.email) { errors := errors + [MsgEmail]; }
  }

  /** The items check of `validateOrder`: one message for a missing list,
      otherwise the `forEach` over the items. */
  method CheckItems(items: seq<OrderItem>) returns (errors: seq<string>)
    ensures errors == if items == [] then [MsgNoItems] else ItemsErrors(items)
  {
    if |items| == 0 {
      return [MsgNoItems];
    }
    errors := [];
    var i := 0;
    while i < |items|
      invariant 0 <= i <= |items|
      invariant errors == ItemsErrors(items[..i])
    {
      var mine := ValidateItem(items[i], i);
      ItemsErrorsSnoc(items, i);
      errors := errors + mine;
      i := i + 1;
    }
    assert items[..i] == items;
  }

  /** The status, type and financial checks of `validateOrder`. */
  method CheckStatusAndAmounts(o: Order) returns (errors: seq<string>)
    ensures errors == TrailerErrors(o)
  {
    errors := [];
    if o.status != "" && !IsKnownStatus(o.status) { errors := errors + [MsgStatus]; }
    ghost var e1 := errors;
    if o.paymentType != "" && !IsKnownType(o.paymentType) { errors := errors + [MsgType]; }
    ghost var e2 := errors;
    if o.discount < 0.0 { errors := errors + [MsgDiscount]; }
    ghost var e3 := errors;
    if o.total < 0.0 { errors := errors + [MsgTotal]; }
    ghost var e4 := errors;
    if o.netAmount < 0.0 { errors := errors + [MsgNetAmount]; }
    ghost var e5 := errors;
    if o.totalAmount < 0.0 { errors := errors + [MsgTotalAmount]; }
    assert e1 == When(!StatusOk(o.status), MsgStatus);
    assert e2 == e1 + When(!TypeOk(o.paymentType), MsgType);
    assert e3 == e2 + When(o.discount < 0.0, MsgDiscount);
    assert e4 == e3 + When(o.total < 0.0, MsgTotal);
    assert e5 == e4 + When(o.netAmount < 0.0, MsgNetAmount);
    assert errors == e5 + When(o.totalAmount < 0.0, MsgTotalAmount);
  }

  /** `validateOrder`: runs every check in order and is valid exactly when no
      message was pushed. */
  method ValidateOrder(o: Order) returns (v: Validation)
    ensures v.errors == OrderErrors(o)
    ensures v.isValid <==> v.errors == []
  {
    var header := CheckRequiredFields(o);
    var items := CheckItems(o.items);
    var trailer := CheckStatusAndAmounts(o);
    var errors := header + items + trailer;
    v := Validation(|errors| == 0, errors);
  }

  /** The order conforms to the schema's invariants, stated check by check. */
  predicate OrderConforms(o: Order) {
    && o.orderId != "" && o.customerName != "" && PhoneOk(o.phone) && EmailOk(o.email)
    && |o.items| > 0 && (forall i :: 0 <= i < |o.items| ==> ItemOk(o.items[i]))
    && StatusOk(o.status) && TypeOk(o.paymentType)
    && o.discount >= 0.0 && o.total >= 0.0 && o.netAmount >= 0.0 && o.totalAmount >= 0.0
  }

  lemma {:induction false} ItemsErrorsEmptyIff(items: seq<OrderItem>)
    ensures ItemsErrors(items) == [] <==> forall i :: 0 <= i < |items| ==> ItemOk(items[i])
  {
    if items != [] {
      var init := items[..|items| - 1];
      ItemsErrorsEmptyIff(init);
      assert forall i :: 0 <= i < |init| ==> init[i] == items[i];
    }
  }

  /** An order is valid exactly when it conforms to every invariant. */
  lemma ValidIffConforms(o: Order)
    ensures OrderErrors(o) == [] <==> OrderConforms(o)
  {
    ItemsErrorsEmptyIff(o.items);
  }

  lemma ItemMessageIsItemMessage(index: nat, text: string)
    ensures IsItemMessage(ItemMessage(index, text))
  {
    var e := ItemMessage(index, text);
    assert e == "Item " + (NatToString(index + 1) + ": " + text);
    assert e[..5] == "Item ";
  }

  lemma ItemErrorsAreItemMessages(item: OrderItem, index: nat)
    ensures forall e :: e in ItemErrors(item, index) ==> IsItemMessage(e)
  {
    ItemMessageIsItemMessage(index, ItemProductIdText);
    ItemMessageIsItemMessage(index, ItemNameText);
    ItemMessageIsItemMessage(index, ItemQuantityText);
    ItemMessageIsItemMessage(index, ItemPriceText);
  }

  lemma {:induction false} ItemsErrorsAreItemMessages(items: seq<OrderItem>)
    ensures forall e :: e in ItemsErrors(items) ==> IsItemMessage(e)
  {
    if items != [] {
      ItemsErrorsAreItemMessages(items[..|items| - 1]);
      ItemErrorsAreItemMessages(items[|items| - 1], |items| - 1);
    }
  }

  /** Each check of an item that fails leaves its own message in the list. */
  lemma {:induction false} ItemsErrorsReport(items: seq<OrderItem>, i: nat)
    requires i < |items|
    ensures !ItemProductIdOk(items[i]) ==> ItemMessage(i, ItemProductIdText) in ItemsErrors(items)
    ensures !ItemNameOk(items[i]) ==> ItemMessage(i, ItemNameText) in ItemsErrors(items)
    ensures !ItemQuantityOk(items[i]) ==> ItemMessage(i, ItemQuantityText) in ItemsErrors(items)
    ensures !ItemPriceOk(items[i]) ==> ItemMessage(i, ItemPriceText) in ItemsErrors(items)
  {
    var init := items[..|items| - 1];
    if i < |items| - 1 {
      ItemsErrorsReport(init, i);
      assert init[i] == items[i];
    }
  }

  // ---------------------------------------------------------------------------
  // The order-level checks as a run of independent checks

  /** Checks run in order, check `i` pushing `msgs[i]` when `fails[i]`. */
  function Checks(fails: seq<bool>, msgs: seq<string>): seq<string>
    requires |fails| == |msgs|
  {
    if fails == [] then []
    else Checks(fails[..|fails| - 1], msgs[..|msgs| - 1]) + When(fails[|fails| - 1], msgs[|msgs| - 1])
  }

  /** A run pushes only its own messages. */
  lemma {:induction false} ChecksFrom(fails: seq<bool>, msgs: seq<string>)
    requires |fails| == |msgs|
    ensures forall e :: e in Checks(fails, msgs) ==> e in msgs
  {
    if fails != [] {
      var n := |fails| - 1;
      ChecksFrom(fails[..n], msgs[..n]);
      assert forall e :: e in msgs[..n] ==> e in msgs;
    }
  }

  /** With distinct messages, a check's message is in the run exactly when
      that check fails. */
  lemma {:induction false} ChecksReport(fails: seq<bool>, msgs: seq<string>, k: nat)
    requires |fails| == |msgs| && D.Distinct(msgs) && k < |msgs|
    ensures msgs[k] in Checks(fails, msgs) <==> fails[k]
  {
    var n := |fails| - 1;
    var f0, m0 := fails[..n], msgs[..n];
    assert D.Distinct(m0) by {
      forall i, j | 0 <= i < j < n ensures m0[i] != m0[j] {
        assert m0[i] == msgs[i] && m0[j] == msgs[j];
      }
    }
    if k < n {
      ChecksReport(f0, m0, k);
      assert m0[k] == msgs[k] && f0[k] == fails[k];
    } else {
      ChecksFrom(f0, m0);
    }
  }

  const HeaderMsgs: seq<string> := [MsgOrderId, MsgCustomerName, MsgPhone, MsgEmail]
  const TrailerMsgs: seq<string> := [MsgStatus, MsgType, MsgDiscount, MsgTotal, MsgNetAmount, MsgTotalAmount]

  function HeaderFails(o: Order): seq<bool> {
    [o.orderId == "", o.customerName == "", !PhoneOk(o.phone), !EmailOk(o.email)]
  }

  function TrailerFails(o: Order): seq<bool> {
    [!StatusOk(o.status), !TypeOk(o.paymentType), o.discount < 0.0, o.total < 0.0,
     o.netAmount < 0.0, o.totalAmount < 0.0]
  }

  /** A run of four checks, written out. */
  lemma Checks4(a: bool, b: bool, c: bool, d: bool, ma: string, mb: string, mc: string, md: string)
    ensures Checks([a, b, c, d], [ma, mb, mc, md])
      == When(a, ma) + When(b, mb) + When(c, mc) + When(d, md)
  {
    assert Checks([a], [ma]) == When(a, ma) by {
      assert [a][..0] == [] && [ma][..0] == [];
    }
    assert Checks([a, b], [ma, mb]) == Checks([a], [ma]) + When(b, mb) by {
      assert [a, b][..1] == [a] && [ma, mb][..1] == [ma];
    }
    assert Checks([a, b, c], [ma, mb, mc]) == Checks([a, b], [ma, mb]) + When(c, mc) by {
      assert [a, b, c][..2] == [a, b] && [ma, mb, mc][..2] == [ma, mb];
    }
    assert Checks([a, b, c, d], [ma, mb, mc, md]) == Checks([a, b, c], [ma, mb, mc]) + When(d, md) by {
      assert [a, b, c, d][..3] == [a, b, c] && [ma, mb, mc, md][..3] == [ma, mb, mc];
    }
  }

  /** A run of six checks: four, then two more. */
  lemma Checks6(a: bool, b: bool, c: bool, d: bool, e: bool, f: bool,
                ma: string, mb: string, mc: string, md: string, me: string, mf: string)
    ensures Checks([a, b, c, d, e, f], [ma, mb, mc, md, me, mf])
      == When(a, ma) + When(b, mb) + When(c, mc) + When(d, md) + When(e, me) + When(f, mf)
  {
    Checks4(a, b, c, d, ma, mb, mc, md);
    assert Checks([a, b, c, d, e], [ma, mb, mc, md, me])
      == Checks([a, b, c, d], [ma, mb, mc, md]) + When(e, me) by {
      assert [a, b, c, d, e][..4] == [a, b, c, d] && [ma, mb, mc, md, me][..4] == [ma, mb, mc, md];
    }
    assert Checks([a, b, c, d, e, f], [ma, mb, mc, md, me, mf])
      == Checks([a, b, c, d, e], [ma, mb, mc, md, me]) + When(f, mf) by {
      assert [a, b, c, d, e, f][..5] == [a, b, c, d, e] && [ma, mb, mc, md, me, mf][..5] == [ma, mb, mc, md, me];
    }
  }

  lemma HeaderAsChecks(o: Order)
    ensures HeaderErrors(o) == Checks(HeaderFails(o), HeaderMsgs)
  {
    Checks4(o.orderId == "", o.customerName == "", !PhoneOk(o.phone), !EmailOk(o.email),
            MsgOrderId, MsgCustomerName, MsgPhone, MsgEmail);
  }

  lemma TrailerAsChecks(o: Order)
    ensures TrailerErrors(o) == Checks(TrailerFails(o), TrailerMsgs)
  {
    Checks6(!StatusOk(o.status), !TypeOk(o.paymentType), o.discount < 0.0, o.total < 0.0,
            o.netAmount < 0.0, o.totalAmount < 0.0,
            MsgStatus, MsgType, MsgDiscount, MsgTotal, MsgNetAmount, MsgTotalAmount);
  }

  /** The four header messages differ by length. */
  lemma HeaderMsgsDistinct()
    ensures D.Distinct(HeaderMsgs)
  {
    HeaderLengths();
  }

  /** The six trailer messages differ by length. */
  lemma TrailerMsgsDistinct()
    ensures D.Distinct(TrailerMsgs)
  {
    TrailerLengths();
  }

  /** A header message is no trailer message, not the items message and not
      an item message. */
  lemma HeaderMsgApart(e: string)
    requires e in HeaderMsgs
    ensures e !in TrailerMsgs && e != MsgNoItems && !IsItemMessage(e)
  {
    HeaderLengths();
    TrailerLengths();
    SameLengthMessages();
    HeaderNotItemMessages();
  }

  /** A trailer message is not the items message and not an item message. */
  lemma TrailerMsgApart(e: string)
    requires e in TrailerMsgs
    ensures e != MsgNoItems && !IsItemMessage(e)
  {
    TrailerLengths();
    SameLengthMessages();
    TrailerNotItemMessages();
  }

  lemma HeaderMessages(o: Order)
    ensures forall e :: e in HeaderErrors(o) ==> e in HeaderMsgs
    ensures MsgOrderId in HeaderErrors(o) <==> o.orderId == ""
    ensures MsgCustomerName in HeaderErrors(o) <==> o.customerName == ""
    ensures MsgPhone in HeaderErrors(o) <==> !PhoneOk(o.phone)
    ensures MsgEmail in HeaderErrors(o) <==> !EmailOk(o.email)
  {
    var f, m := HeaderFails(o), HeaderMsgs;
    HeaderAsChecks(o);
    HeaderMsgsDistinct();
    ChecksFrom(f, m);
    ChecksReport(f, m, 0);
    ChecksReport(f, m, 1);
    ChecksReport(f, m, 2);
    ChecksReport(f, m, 3);
  }

  lemma TrailerMessages(o: Order)
    ensures forall e :: e in TrailerErrors(o) ==> e in TrailerMsgs
    ensures MsgStatus in TrailerErrors(o) <==> !StatusOk(o.status)
    ensures MsgType in TrailerErrors(o) <==> !TypeOk(o.paymentType)
    ensures MsgDiscount in TrailerErrors(o) <==> o.discount < 0.0
    ensures MsgTotal in TrailerErrors(o) <==> o.total < 0.0
    ensures MsgNetAmount in TrailerErrors(o) <==> o.netAmount < 0.0
    ensures MsgTotalAmount in TrailerErrors(o) <==> o.totalAmount < 0.0
  {
    var f, m := TrailerFails(o), TrailerMsgs;
    TrailerAsChecks(o);
    TrailerMsgsDistinct();
    ChecksFrom(f, m);
    ChecksReport(f, m, 0);
    ChecksReport(f, m, 1);
    ChecksReport(f, m, 2);
    ChecksReport(f, m, 3);
    ChecksReport(f, m, 4);
    ChecksReport(f, m, 5);
  }

  /** An order-level message other than the items one can come only from the
      required-field or the status-and-amount checks. */
  lemma OrderMessageSource(o: Order, e: string)
    requires !IsItemMessage(e) && e != MsgNoItems
    ensures e in OrderErrors(o) <==> e in HeaderErrors(o) || e in TrailerErrors(o)
  {
    ItemsErrorsAreItemMessages(o.items);
  }

  /** A header message is in the list exactly when the header checks push it. */
  lemma HeaderMsgInOrder(o: Order, e: string)
    requires e in HeaderMsgs
    ensures e in OrderErrors(o) <==> e in HeaderErrors(o)
  {
    HeaderMsgApart(e);
    TrailerMessages(o);
    OrderMessageSource(o, e);
  }

  /** A trailer message is in the list exactly when the trailer checks push it. */
  lemma TrailerMsgInOrder(o: Order, e: string)
    requires e in TrailerMsgs
    ensures e in OrderErrors(o) <==> e in TrailerErrors(o)
  {
    TrailerMsgApart(e);
    HeaderMessages(o);
    if e in HeaderMsgs {
      HeaderMsgApart(e);
    }
    OrderMessageSource(o, e);
  }

  /** Each required-field message is present exactly when its check fails. */
  lemma RequiredFieldViolationsReported(o: Order)
    ensures MsgOrderId in OrderErrors(o) <==> o.orderId == ""
    ensures MsgCustomerName in OrderErrors(o) <==> o.customerName == ""
    ensures MsgPhone in OrderErrors(o) <==> !PhoneOk(o.phone)
    ensures MsgEmail in OrderErrors(o) <==> !EmailOk(o.email)
  {
    HeaderMessages(o);
    var m := HeaderMsgs;
    HeaderMsgInOrder(o, m[0]);
    HeaderMsgInOrder(o, m[1]);
    HeaderMsgInOrder(o, m[2]);
    HeaderMsgInOrder(o, m[3]);
  }

  /** The items message is present exactly when the order has no items. */
  lemma NoItemsViolationReported(o: Order)
    ensures MsgNoItems in OrderErrors(o) <==> o.items == []
  {
    HeaderMessages(o);
    TrailerMessages(o);
    ItemsErrorsAreItemMessages(o.items);
    if MsgNoItems in HeaderErrors(o) {
      HeaderMsgApart(MsgNoItems);
    }
    if MsgNoItems in TrailerErrors(o) {
      TrailerMsgApart(MsgNoItems);
    }
    if MsgNoItems in ItemsErrors(o.items) {
      HeaderNotItemMessages();
    }
  }

  /** Each status, type and amount message is present exactly when its check fails. */
  lemma AmountViolationsReported(o: Order)
    ensures MsgStatus in OrderErrors(o) <==> !StatusOk(o.status)
    ensures MsgType in OrderErrors(o) <==> !TypeOk(o.paymentType)
    ensures MsgDiscount in OrderErrors(o) <==> o.discount < 0.0
    ensures MsgTotal in OrderErrors(o) <==> o.total < 0.0
    ensures MsgNetAmount in OrderErrors(o) <==> o.netAmount < 0.0
    ensures MsgTotalAmount in OrderErrors(o) <==> o.totalAmount < 0.0
  {
    TrailerMessages(o);
    var m := TrailerMsgs;
    TrailerMsgInOrder(o, m[0]);
    TrailerMsgInOrder(o, m[1]);
    TrailerMsgInOrder(o, m[2]);
    TrailerMsgInOrder(o, m[3]);
    TrailerMsgInOrder(o, m[4]);
    TrailerMsgInOrder(o, m[5]);
  }

  /** Each failing check of an item leaves its numbered message in the list, so
      several violations yield several messages. */
  lemma ItemViolationsReported(o: Order, i: nat)
    requires i < |o.items|
    ensures !ItemProductIdOk(o.items[i]) ==> ItemMessage(i, ItemProductIdText) in OrderErrors(o)
    ensures !ItemNameOk(o.items[i]) ==> ItemMessage(i, ItemNameText) in OrderErrors(o)
    ensures !ItemQuantityOk(o.items[i]) ==> ItemMessage(i, ItemQuantityText) in OrderErrors(o)
    ensures !ItemPriceOk(o.items[i]) ==> ItemMessage(i, ItemPriceText) in OrderErrors(o)
  {
    ItemsErrorsReport(o.items, i);
  }

  /** With no items, the list holds the "At least one item" message exactly
      once, between the order-level messages, and no per-item message. */
  lemma NoItemsSingleMessage(o: Order)
    requires o.items == []
    ensures OrderErrors(o) == HeaderErrors(o) + [MsgNoItems] + TrailerErrors(o)
    ensures MsgNoItems !in HeaderErrors(o) && MsgNoItems !in TrailerErrors(o)
    ensures forall e :: e in OrderErrors(o) ==> !IsItemMessage(e)
  {
    HeaderMessages(o);
    TrailerMessages(o);
    forall e | e in HeaderErrors(o) ensures e != MsgNoItems && !IsItemMessage(e) {
      HeaderMsgApart(e);
    }
    forall e | e in TrailerErrors(o) ensures e != MsgNoItems && !IsItemMessage(e) {
      TrailerMsgApart(e);
    }
    HeaderNotItemMessages();
  }

  // ---------------------------------------------------------------------------
  // Constructed orders pass validation

  /** A cart item the storefront can check out: an id, a name, a positive or
      absent quantity and a non-negative or absent price. */
  predicate GoodCartItem(item: CartItem) {
    && (TruthyStr(item.id) || TruthyStr(item.productId)) && TruthyStr(item.name)
    && (item.quantity.None? || item.quantity.value >= 0.0)
    && (item.qty.None? || item.qty.value >= 0.0)
    && (item.unitPrice.None? || item.unitPrice.value >= 0.0)
    && (item.price.None? || item.price.value >= 0.0)
  }

  lemma GoodCartItemProcessed(item: CartItem)
    requires GoodCartItem(item)
    ensures ItemOk(ProcessItem(item)) && ProcessItem(item).total >= 0.0
  {
  }

  /** With a named customer, a 10-digit phone, a well-formed email, a non-empty
      cart of good items, a non-negative discount and valid or absent status and
      type, the order `createOrderObject` builds passes `validateOrder`. */
  lemma CreatedOrderIsValid(client: ClientData, cart: seq<CartItem>, options: OrderOptions,
                            now: LocalTime, nowMs: int, rand: real)
    requires ValidLocalTime(now) && 0.0 <= rand < 1.0
    requires TruthyStr(client.name)
    requires client.phone.Some? && IsTenDigits(client.phone.value)
    requires client.email.Some? && LooseEmail(client.email.value)
    requires |cart| > 0 && forall i :: 0 <= i < |cart| ==> GoodCartItem(cart[i])
    requires options.discount.None? || options.discount.value >= 0.0
    requires options.status.None? || StatusOk(options.status.value)
    requires options.paymentType.None? || TypeOk(options.paymentType.value)
    ensures OrderErrors(CreateOrderObject(client, cart, options, now, nowMs, rand)) == []
  {
    var o := CreateOrderObject(client, cart, options, now, nowMs, rand);
    forall i | 0 <= i < |cart| ensures ItemOk(o.items[i]) && ItemTotal(o.items[i]) >= 0.0 {
      GoodCartItemProcessed(cart[i]);
    }
    SumOfNonNegative(o.items, ItemTotal);
    ValidIffConforms(o);
  }

  // ---------------------------------------------------------------------------
  // Status transitions

  const AllStatuses: seq<string> := ["Pending", "Dispatched", "Delivered"]

  /** Position of a status in the lifecycle Pending → Dispatched → Delivered. */
  function StatusRank(s: string): nat
    requires IsKnownStatus(s)
  {
    if s == "Pending" then 0 else if s == "Dispatched" then 1 else 2
  }

  /** `getValidStatusTransitions`. An empty list is truthy in JavaScript, so
      Delivered keeps its empty list rather than falling back. */
  function ValidStatusTransitions(current: string): (r: seq<string>)
    ensures IsKnownStatus(current) ==>
      forall t :: t in r ==> IsKnownStatus(t) && StatusRank(t) == StatusRank(current) + 1
    ensures !IsKnownStatus(current) ==> r == AllStatuses
  {
    if current == "Pending" then ["Dispatched"]
    else if current == "Dispatched" then ["Delivered"]
    else if current == "Delivered" then []
    else AllStatuses
  }

  /** The table only moves forward one step: Pending may go only to Dispatched,
      Dispatched only to Delivered, Delivered nowhere; no known status lists
      itself or an earlier status. */
  lemma TransitionsForwardOnly(current: string, next: string)
    requires IsKnownStatus(current) && IsKnownStatus(next)
    ensures next in ValidStatusTransitions(current) <==> StatusRank(next) == StatusRank(current) + 1
    ensures StatusRank(next) <= StatusRank(current) ==> next !in ValidStatusTransitions(current)
    ensures ValidStatusTransitions("Delivered") == []
  {
  }
}
