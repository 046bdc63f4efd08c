/**
 * The order server (server/index.ts): an in-memory store of orders and their
 * line items behind a shared passphrase, with handlers to create, read, list,
 * extend, update and notify orders and to export one day's orders as CSV.
 *
 * Identifiers and clock readings that the server generates itself are
 * parameters of the handlers here.
 */
module OrderStore {
  import opened Common
  import opened Text
  import opened Payload

  /** A point in time, in milliseconds since the epoch. */
  type Instant = int

  /** One audit record of an order's history. */
  datatype HistoryEntry = HistoryEntry(when: Instant, action: string)

  /** A stored line item; name and price are copied from the request when the line is added. */
  datatype OrderItem = OrderItem(id: string, orderId: string, itemKey: string, name: string, qty: int, price: int)

  datatype Order = Order(
    id: string,
    orderNo: string,
    createdAt: Instant,
    updatedAt: Instant,
    guestName: string,
    roomNo: string,
    notes: string,
    menuVersion: string,
    status: string,
    paymentStatus: string,
    history: seq<HistoryEntry>,
    total: int)

  /** An order as sent back to the client: the order with its line items. */
  datatype OrderView = OrderView(order: Order, items: seq<OrderItem>)

  /** A `date` query parameter: its text and the first and last millisecond of that local day. */
  datatype DateQuery = DateQuery(text: string, start: Instant, end: Instant)

  /** The calendar reading used for the order number: `getFullYear`, `getMonth`, `getDate`, `Date.now`. */
  datatype ClockReading = ClockReading(year: nat, monthIndex: nat, day: nat, millis: nat)

  datatype Response =
    | Unauthorized
    | NotFound(message: string)
    | BadRequest(message: string)
    | OrderJson(view: OrderView)
    | OrderListJson(views: seq<OrderView>)
    | SentJson
    | CsvFile(fileName: string, text: string)

  // ---------------------------------------------------------------------
  // Request values
  // ---------------------------------------------------------------------

  /** JavaScript truthiness of an optional string: absent and `""` are false. */
  predicate Truthy(s: Option<string>)
  {
    s.Some? && s.value != ""
  }

  /** `s || fallback` on an optional string. */
  function OrElse(s: Option<string>, fallback: string): string
  {
    if Truthy(s) then s.value else fallback
  }

  predicate DateGiven(date: Option<DateQuery>)
  {
    date.Some? && date.value.text != ""
  }

  // ---------------------------------------------------------------------
  // Authentication
  // ---------------------------------------------------------------------

  const DefaultPassphrase: string := "letmein"

  /** The configured passphrase: the environment's value, or "letmein" when unset or empty. */
  function ConfiguredPassphrase(env: Option<string>): (p: string)
    ensures p != ""
    ensures Truthy(env) ==> p == env.value
    ensures !Truthy(env) ==> p == DefaultPassphrase
  {
    OrElse(env, DefaultPassphrase)
  }

  /** The credential of a request: the `x-passphrase` header, or the `pass` query parameter without one. */
  function SuppliedPass(header: Option<string>, query: Option<string>): Option<string>
  {
    if Truthy(header) then header else query
  }

  /**
   * `requireAuth`: the request passes iff the supplied credential is
   * non-empty and equal to the configured passphrase.
   */
  function Authorized(header: Option<string>, query: Option<string>, passphrase: string): (ok: bool)
    ensures ok ==> passphrase != ""
    ensures Truthy(header) ==> (ok <==> header.value == passphrase)
    ensures !Truthy(header) ==> (ok <==> Truthy(query) && query.value == passphrase)
  {
    var pass := SuppliedPass(header, query);
    Truthy(pass) && pass.value == passphrase
  }

  /** With no passphrase configured exactly the credential "letmein" is accepted. */
  lemma DefaultPassphraseOnly(header: Option<string>, query: Option<string>)
    ensures Authorized(header, query, ConfiguredPassphrase(None)) <==> SuppliedPass(header, query) == Some("letmein")
  {
  }

  // ---------------------------------------------------------------------
  // Order numbers
  // ---------------------------------------------------------------------

  /** `makeOrderNo`: "ORD-" + YY + MM + DD + "-" + the last five digits of the millisecond clock. */
  function MakeOrderNo(clock: ClockReading): string
  {
    "ORD-"
    + SliceLast(NatToString(clock.year), 2)
    + PadStart(NatToString(clock.monthIndex + 1), 2, '0')
    + PadStart(NatToString(clock.day), 2, '0')
    + "-"
    + SliceLast(NatToString(clock.millis), 5)
  }

  /** The fields an order number encodes. */
  datatype OrderNoParts = OrderNoParts(yy: nat, mm: nat, dd: nat, suffix: nat)

  /** Reads an order number of the form `ORD-YYMMDD-NNNNN`. */
  function ParseOrderNo(s: string): Option<OrderNoParts>
  {
    if && |s| == 16 && s[..4] == "ORD-" && s[10] == '-'
       && AllDigits(s[4..6]) && AllDigits(s[6..8]) && AllDigits(s[8..10]) && AllDigits(s[11..])
    then
      Some(OrderNoParts(ParseDigits(s[4..6]), ParseDigits(s[6..8]), ParseDigits(s[8..10]), ParseDigits(s[11..])))
    else None
  }

  /**
   * For a year of at least two digits, a calendar month and day, and a clock
   * of at least five digits, the order number has the `ORD-YYMMDD-NNNNN`
   * shape and records the year modulo 100, the month, the day and the clock
   * modulo 100000.
   */
  lemma OrderNoRoundTrip(clock: ClockReading)
    requires clock.year >= 10 && clock.monthIndex < 12 && 1 <= clock.day <= 31 && clock.millis >= 10000
    ensures |MakeOrderNo(clock)| == 16
    ensures ParseOrderNo(MakeOrderNo(clock))
            == Some(OrderNoParts(clock.year % 100, clock.monthIndex + 1, clock.day, clock.millis % 100000))
  {
    var yy := FixedDigits(clock.year, 2);
    var mm := FixedDigits(clock.monthIndex + 1, 2);
    var dd := FixedDigits(clock.day, 2);
    var ss := FixedDigits(clock.millis, 5);
    OrderNoFields(clock);
    ParseAssembled(yy, mm, dd, ss);
    FieldValues(clock);
  }

  lemma FieldValues(clock: ClockReading)
    requires clock.monthIndex < 12 && clock.day <= 31
    ensures ParseDigits(FixedDigits(clock.year, 2)) == clock.year % 100
    ensures ParseDigits(FixedDigits(clock.monthIndex + 1, 2)) == clock.monthIndex + 1
    ensures ParseDigits(FixedDigits(clock.day, 2)) == clock.day
    ensures ParseDigits(FixedDigits(clock.millis, 5)) == clock.millis % 100000
  {
    TwoDigits(clock.year);
    SmallTwoDigits(clock.monthIndex + 1);
    SmallTwoDigits(clock.day);
    FiveDigits(clock.millis);
  }

  lemma TwoDigits(n: nat)
    ensures ParseDigits(FixedDigits(n, 2)) == n % 100
  {
    assert Pow10(2) == 100;
    ParseFixedDigits(n, 2);
  }

  lemma SmallTwoDigits(n: nat)
    requires n < 100
    ensures ParseDigits(FixedDigits(n, 2)) == n
  {
    TwoDigits(n);
  }

  lemma FiveDigits(n: nat)
    ensures ParseDigits(FixedDigits(n, 5)) == n % 100000
  {
    assert Pow10(5) == 100000;
    ParseFixedDigits(n, 5);
  }

  /** Each field of the order number is the fixed-width rendering of its clock value. */
  lemma OrderNoFields(clock: ClockReading)
    requires clock.year >= 10 && clock.monthIndex < 12 && 1 <= clock.day <= 31 && clock.millis >= 10000
    ensures MakeOrderNo(clock)
            == "ORD-" + FixedDigits(clock.year, 2) + FixedDigits(clock.monthIndex + 1, 2)
               + FixedDigits(clock.day, 2) + "-" + FixedDigits(clock.millis, 5)
  {
    SliceLastOfDecimal(clock.year, 2);
    PadStartOfDecimal(clock.monthIndex + 1);
    PadStartOfDecimal(clock.day);
    assert Pow10(4) == 10000;
    SliceLastOfDecimal(clock.millis, 5);
  }

  lemma ParseAssembled(yy: string, mm: string, dd: string, ss: string)
    requires |yy| == 2 && |mm| == 2 && |dd| == 2 && |ss| == 5
    requires AllDigits(yy) && AllDigits(mm) && AllDigits(dd) && AllDigits(ss)
    ensures ParseOrderNo("ORD-" + yy + mm + dd + "-" + ss)
            == Some(OrderNoParts(ParseDigits(yy), ParseDigits(mm), ParseDigits(dd), ParseDigits(ss)))
  {
    AssembledPieces(yy, mm, dd, ss);
  }

  lemma AssembledPieces(yy: string, mm: string, dd: string, ss: string)
    requires |yy| == 2 && |mm| == 2 && |dd| == 2 && |ss| == 5
    ensures var s := "ORD-" + yy + mm + dd + "-" + ss;
      |s| == 16 && s[..4] == "ORD-" && s[10] == '-' && s[4..6] == yy && s[6..8] == mm && s[8..10] == dd && s[11..] == ss
  {
    var s := "ORD-" + yy + mm + dd + "-" + ss;
    assert s[4..6] == yy by { SliceAt("ORD-", yy, mm + dd + "-" + ss); }
    assert s[6..8] == mm by { SliceAt("ORD-" + yy, mm, dd + "-" + ss); }
    assert s[8..10] == dd by { SliceAt("ORD-" + yy + mm, dd, "-" + ss); }
    assert s[11..] == ss by { SliceAt("ORD-" + yy + mm + dd + "-", ss, ""); }
  }

  /** The middle part of a three-part concatenation. */
  lemma SliceAt(x: string, y: string, z: string)
    ensures (x + y + z)[|x|..|x| + |y|] == y
    ensures x + (y + z) == x + y + z
  {
  }

  // ---------------------------------------------------------------------
  // Line items and totals
  // ---------------------------------------------------------------------

  /** Σ price × qty over stored line items. */
  function ItemsTotal(items: seq<OrderItem>): int
  {
    if items == [] then 0
    else
      var last := items[|items| - 1];
      ItemsTotal(items[..|items| - 1]) + last.price * last.qty
  }

  lemma {:induction false} ItemsTotalAppend(a: seq<OrderItem>, b: seq<OrderItem>)
    ensures ItemsTotal(a + b) == ItemsTotal(a) + ItemsTotal(b)
  {
    if b != [] {
      var n := |b| - 1;
      ItemsTotalAppend(a, b[..n]);
      assert (a + b)[..|a + b| - 1] == a + b[..n];
    } else {
      assert a + b == a;
    }
  }

  /** The stored lines for requested `lines`: one each, in order, owned by `orderId`. */
  function NewItems(orderId: string, itemIds: seq<string>, lines: seq<PayloadItem>): (r: seq<OrderItem>)
    requires |itemIds| == |lines|
    ensures |r| == |lines|
  {
    seq(|lines|, k requires 0 <= k < |lines| =>
      OrderItem(itemIds[k], orderId, lines[k].itemKey, lines[k].name, lines[k].qty, lines[k].price))
  }

  /**
   * Storing requested lines keeps them one-to-one and in order, with the same
   * key, name, quantity and price, owned by the order; their total is the
   * requested total.
   */
  lemma {:induction false} NewItemsMatchRequest(orderId: string, itemIds: seq<string>, lines: seq<PayloadItem>)
    requires |itemIds| == |lines|
    ensures var items := NewItems(orderId, itemIds, lines);
      && |items| == |lines|
      && (forall k | 0 <= k < |lines| ::
            && items[k].orderId == orderId && items[k].id == itemIds[k]
            && items[k].itemKey == lines[k].itemKey && items[k].name == lines[k].name
            && items[k].qty == lines[k].qty && items[k].price == lines[k].price)
      && ItemsTotal(items) == PayloadTotal(lines)
  {
    if lines != [] {
      var n := |lines| - 1;
      NewItemsMatchRequest(orderId, itemIds[..n], lines[..n]);
      assert NewItems(orderId, itemIds, lines)[..n] == NewItems(orderId, itemIds[..n], lines[..n]);
    }
  }

  /** The `forEach` that accumulates the requested total. */
  method SumRequested(lines: seq<PayloadItem>) returns (total: int)
    ensures total == PayloadTotal(lines)
  {
    total := 0;
    for i := 0 to |lines|
      invariant total == PayloadTotal(lines[..i])
    {
      total := total + lines[i].price * lines[i].qty;
      assert lines[..i + 1][..i] == lines[..i];
    }
    assert lines[..|lines|] == lines;
  }

  /** The `map` of the add-items handler: builds the new lines and accumulates their total. */
  method PrepareLines(orderId: string, lines: seq<PayloadItem>, itemIds: seq<string>)
    returns (toAdd: seq<OrderItem>, addedTotal: int)
    requires |itemIds| == |lines|
    ensures toAdd == NewItems(orderId, itemIds, lines)
    ensures addedTotal == PayloadTotal(lines)
  {
    toAdd, addedTotal := [], 0;
    for i := 0 to |lines|
      invariant toAdd == NewItems(orderId, itemIds[..i], lines[..i])
      invariant addedTotal == PayloadTotal(lines[..i])
    {
      var line := lines[i];
      addedTotal := addedTotal + line.price * line.qty;
      toAdd := toAdd + [OrderItem(itemIds[i], orderId, line.itemKey, line.name, line.qty, line.price)];
      assert lines[..i + 1][..i] == lines[..i];
    }
    assert lines[..|lines|] == lines && itemIds[..|itemIds|] == itemIds;
  }

  // ---------------------------------------------------------------------
  // Listing
  // ---------------------------------------------------------------------

  /** One of the list handler's filters: the day window, an exact status, an exact room. */
  datatype OrderFilter = ByDate(date: DateQuery) | ByStatus(status: string) | ByRoom(roomNo: string)

  predicate Passes(o: Order, f: OrderFilter)
  {
    match f
    case ByDate(d) => d.start <= o.createdAt <= d.end
    case ByStatus(st) => o.status == st
    case ByRoom(room) => o.roomNo == room
  }

  /** An order passes every filter whose query parameter is given. */
  predicate Listed(o: Order, date: Option<DateQuery>, status: Option<string>, roomNo: Option<string>)
  {
    && (DateGiven(date) ==> Passes(o, ByDate(date.value)))
    && (Truthy(status) ==> Passes(o, ByStatus(status.value)))
    && (Truthy(roomNo) ==> Passes(o, ByRoom(roomNo.value)))
  }

  /** `Array.prototype.filter` with one of the filters above. */
  function Where(os: seq<Order>, f: OrderFilter): (r: seq<Order>)
    ensures forall o :: o in r <==> o in os && Passes(o, f)
    ensures IsSubsequence(r, os)
  {
    if os == [] then []
    else
      var last := os[|os| - 1];
      var rest := Where(os[..|os| - 1], f);
      assert os[..|os| - 1] + [last] == os;
      if Passes(last, f) then
        rest + [last]
      else
        SubsequenceExtend(rest, os[..|os| - 1], last);
        rest
  }

  /** Orders sorted newest first. */
  ghost predicate NewestFirst(os: seq<Order>)
  {
    forall i, j | 0 <= i < j < |os| :: os[i].createdAt >= os[j].createdAt
  }

  /** Inserts `o` before the first order that is not newer than it. */
  function Insert(o: Order, sorted: seq<Order>): seq<Order>
  {
    if sorted == [] || sorted[0].createdAt <= o.createdAt then [o] + sorted
    else [sorted[0]] + Insert(o, sorted[1..])
  }

  /** The list handler's `sort` by `created_at`, newest first; an insertion sort. */
  function SortNewestFirst(os: seq<Order>): seq<Order>
  {
    if os == [] then [] else Insert(os[0], SortNewestFirst(os[1..]))
  }

  /** Inserting adds exactly the one order. */
  lemma {:induction false} InsertAddsOne(o: Order, sorted: seq<Order>)
    ensures multiset(Insert(o, sorted)) == multiset(sorted) + multiset{o}
  {
    if sorted != [] && sorted[0].createdAt > o.createdAt {
      InsertAddsOne(o, sorted[1..]);
      assert sorted == [sorted[0]] + sorted[1..];
    }
  }

  /** Inserting into a newest-first list keeps it newest first and adds exactly that order. */
  lemma {:induction false} InsertSorted(o: Order, sorted: seq<Order>)
    requires NewestFirst(sorted)
    ensures NewestFirst(Insert(o, sorted))
    ensures multiset(Insert(o, sorted)) == multiset(sorted) + multiset{o}
    ensures Insert(o, sorted) != [] && (Insert(o, sorted)[0] == o || Insert(o, sorted)[0] == sorted[0])
  {
    InsertAddsOne(o, sorted);
    if sorted != [] && sorted[0].createdAt > o.createdAt {
      var rest := sorted[1..];
      InsertSorted(o, rest);
      var r := Insert(o, rest);
      assert Insert(o, sorted) == [sorted[0]] + r;
      assert sorted[0].createdAt >= r[0].createdAt;
    }
  }

  /** Sorting yields the same orders, newest first. */
  lemma {:induction false} SortNewestFirstCorrect(os: seq<Order>)
    ensures NewestFirst(SortNewestFirst(os))
    ensures multiset(SortNewestFirst(os)) == multiset(os)
  {
    if os != [] {
      SortNewestFirstCorrect(os[1..]);
      InsertSorted(os[0], SortNewestFirst(os[1..]));
      assert os == [os[0]] + os[1..];
    }
  }

  // ---------------------------------------------------------------------
  // CSV export
  // ---------------------------------------------------------------------

  const CsvHeader: string := "order_no,created_at,guest_name,room_no,total,status,payment_status,items"

  function Quoted(s: string): string
  {
    "\"" + s + "\""
  }

  /** The items column: `qty + "x " + name` for each line, joined by "|". */
  function ItemsSummary(items: seq<OrderItem>): string
  {
    Join(seq(|items|, k requires 0 <= k < |items| => IntToString(items[k].qty) + "x " + items[k].name), "|")
  }

  /** The columns of an order's CSV line; all but the total are quoted. */
  function CsvFields(o: Order, items: seq<OrderItem>): (r: seq<string>)
    ensures |r| == 8
  {
    [Quoted(o.orderNo), Quoted(IntToString(o.createdAt)), Quoted(o.guestName), Quoted(o.roomNo),
     IntToString(o.total), Quoted(o.status), Quoted(o.paymentStatus), Quoted(ItemsSummary(items))]
  }

  /** One CSV line for an order. */
  function CsvRow(o: Order, items: seq<OrderItem>): string
  {
    Join(CsvFields(o, items), ",")
  }

  /** `orderItemsStore.get(id) || []`. */
  function ItemsOf(orderItems: map<string, seq<OrderItem>>, id: string): seq<OrderItem>
  {
    if id in orderItems then orderItems[id] else []
  }

  /** The data lines of the export, one per order, in the given order. */
  function CsvRows(rows: seq<Order>, orderItems: map<string, seq<OrderItem>>): (r: seq<string>)
    ensures |r| == |rows|
  {
    seq(|rows|, k requires 0 <= k < |rows| => CsvRow(rows[k], ItemsOf(orderItems, rows[k].id)))
  }

  /** The export's lines: the column header, then one line per order in the given order. */
  function CsvLines(rows: seq<Order>, orderItems: map<string, seq<OrderItem>>): (r: seq<string>)
    ensures |r| == |rows| + 1 && r[0] == CsvHeader
    ensures forall k | 0 <= k < |rows| :: r[k + 1] == CsvRow(rows[k], ItemsOf(orderItems, rows[k].id))
  {
    [CsvHeader] + CsvRows(rows, orderItems)
  }

  /** The export's `for ... of` loop: the header, then one line per order. */
  method RenderLines(rows: seq<Order>, orderItems: map<string, seq<OrderItem>>) returns (lines: seq<string>)
    ensures lines == CsvLines(rows, orderItems)
  {
    lines := [CsvHeader];
    for i := 0 to |rows|
      invariant |lines| == i + 1 && lines[0] == CsvHeader
      invariant forall k | 0 <= k < i :: lines[k + 1] == CsvRow(rows[k], ItemsOf(orderItems, rows[k].id))
    {
      var items := ItemsOf(orderItems, rows[i].id);
      lines := lines + [CsvRow(rows[i], items)];
    }
    var target := CsvLines(rows, orderItems);
    forall k | 0 <= k < |lines|
      ensures lines[k] == target[k]
    {
      if k > 0 {
        assert lines[k] == CsvRow(rows[k - 1], ItemsOf(orderItems, rows[k - 1].id));
      }
    }
  }

  /** The values of a JavaScript Map in insertion order. */
  function StoredOrders(keys: seq<string>, orders: map<string, Order>): (r: seq<Order>)
    requires forall k | k in keys :: k in orders
    ensures |r| == |keys|
  {
    seq(|keys|, i requires 0 <= i < |keys| => orders[keys[i]])
  }

  /** An order with its line items, as a response body. */
  function Views(os: seq<Order>, orderItems: map<string, seq<OrderItem>>): (r: seq<OrderView>)
    ensures |r| == |os|
    ensures forall i | 0 <= i < |os| :: r[i].order == os[i] && r[i].items == ItemsOf(orderItems, os[i].id)
  {
    seq(|os|, i requires 0 <= i < |os| => OrderView(os[i], ItemsOf(orderItems, os[i].id)))
  }

  // ---------------------------------------------------------------------
  // What each handler does to one stored order
  // ---------------------------------------------------------------------

  /**
   * What the store keeps about every order: it is filed under its own id,
   * its total is the sum over its stored lines, every line points back to it,
   * and its history opens with its creation.
   */
  predicate Consistent(id: string, o: Order, items: seq<OrderItem>)
  {
    && o.id == id
    && o.total == ItemsTotal(items)
    && (forall i | 0 <= i < |items| :: items[i].orderId == id)
    && |o.history| >= 1
    && o.history[0] == HistoryEntry(o.createdAt, "Created")
  }

  /** The order the create handler stores for `payload`. */
  function NewOrder(id: string, orderNo: string, now: Instant, payload: OrderPayload): Order
  {
    Order(
      id, orderNo, now, now,
      OrElse(payload.guestName, ""),
      OrElse(payload.roomNo, ""),
      OrElse(payload.notes, ""),
      OrElse(payload.menuVersion, "RestoVersion"),
      "New", "Not Paid",
      [HistoryEntry(now, "Created")],
      PayloadTotal(payload.items))
  }

  /**
   * A new order is consistent with the lines stored beside it, starts as
   * "New" and "Not Paid" with the single history entry "Created", is created
   * and updated at `now`, always names a menu version, and takes the guest's
   * text fields as given, `""` where absent or empty.
   */
  lemma NewOrderConsistent(id: string, orderNo: string, now: Instant, payload: OrderPayload, itemIds: seq<string>)
    requires |itemIds| == |payload.items|
    ensures var o := NewOrder(id, orderNo, now, payload);
      && Consistent(id, o, NewItems(id, itemIds, payload.items))
      && o.status == "New" && o.paymentStatus == "Not Paid"
      && o.menuVersion != ""
      && o.menuVersion == (if Truthy(payload.menuVersion) then payload.menuVersion.value else "RestoVersion")
      && o.history == [HistoryEntry(now, "Created")]
      && o.createdAt == now && o.updatedAt == now
      && o.guestName == (if Truthy(payload.guestName) then payload.guestName.value else "")
      && o.roomNo == (if Truthy(payload.roomNo) then payload.roomNo.value else "")
      && o.notes == (if Truthy(payload.notes) then payload.notes.value else "")
  {
    NewItemsMatchRequest(id, itemIds, payload.items);
  }

  /** The history action of the add-items handler. */
  function AddedAction(count: nat): string
  {
    "Added " + NatToString(count) + " items"
  }

  /** The order after `count` lines worth `added` were appended at `now`. */
  function WithItems(o: Order, count: nat, added: int, now: Instant): Order
  {
    o.(total := o.total + added,
       updatedAt := now,
       history := o.history + [HistoryEntry(now, AddedAction(count))],
       status := "Updated")
  }

  /**
   * Appending lines keeps an order consistent with its grown list of lines:
   * the total rises by exactly the requested total, the history keeps its
   * past and gains the one entry "Added N items" at `now`, the update time
   * becomes `now`, and nothing but total, update time, history and status
   * changes.
   */
  lemma {:induction false} WithItemsConsistent(
    id: string, o: Order, items: seq<OrderItem>, lines: seq<PayloadItem>, itemIds: seq<string>, now: Instant)
    requires Consistent(id, o, items)
    requires |itemIds| == |lines|
    ensures var o' := WithItems(o, |lines|, PayloadTotal(lines), now);
      && Consistent(id, o', items + NewItems(id, itemIds, lines))
      && o'.total == o.total + PayloadTotal(lines)
      && o'.history == o.history + [HistoryEntry(now, AddedAction(|lines|))]
      && o'.updatedAt == now
      && o'.status == "Updated"
      && o'.(total := o.total, updatedAt := o.updatedAt, history := o.history, status := o.status) == o
  {
    var added := NewItems(id, itemIds, lines);
    NewItemsMatchRequest(id, itemIds, lines);
    ItemsTotalAppend(items, added);
    var all := items + added;
    forall i | 0 <= i < |all|
      ensures all[i].orderId == id
    {
      if i >= |items| {
        assert all[i] == added[i - |items|];
      }
    }
  }

  /** `history.push(entry)` when `cond` holds. */
  function LogIf(history: seq<HistoryEntry>, cond: bool, entry: HistoryEntry): seq<HistoryEntry>
  {
    if cond then history + [entry] else history
  }

  /** The order after an update request with the given body fields at `now`. */
  function Updated(
    o: Order, status: Option<string>, paymentStatus: Option<string>,
    requestedTime: Option<string>, notes: Option<string>, now: Instant): Order
  {
    var statusChanged := Truthy(status) && status.value != o.status;
    var paymentChanged := Truthy(paymentStatus) && paymentStatus.value != o.paymentStatus;
    o.(status := if statusChanged then status.value else o.status,
       paymentStatus := if paymentChanged then paymentStatus.value else o.paymentStatus,
       notes := if notes.Some? then notes.value else if Truthy(requestedTime) then requestedTime.value else o.notes,
       updatedAt := now,
       history := LogIf(LogIf(o.history, statusChanged, HistoryEntry(now, "Status -> " + OrElse(status, ""))),
                        paymentChanged, HistoryEntry(now, "Payment -> " + OrElse(paymentStatus, ""))))
  }

  /** The update handler's steps on the order record, in the handler's order. */
  method ApplyUpdate(
    order: Order, status: Option<string>, paymentStatus: Option<string>,
    requestedTime: Option<string>, notes: Option<string>, now: Instant)
    returns (o: Order)
    ensures o == Updated(order, status, paymentStatus, requestedTime, notes, now)
  {
    o := order;
    var history := o.history;
    if Truthy(status) && status.value != o.status {
      history := history + [HistoryEntry(now, "Status -> " + status.value)];
      o := o.(status := status.value);
    }
    if Truthy(paymentStatus) && paymentStatus.value != o.paymentStatus {
      history := history + [HistoryEntry(now, "Payment -> " + paymentStatus.value)];
      o := o.(paymentStatus := paymentStatus.value);
    }
    if Truthy(requestedTime) {
      o := o.(notes := requestedTime.value);
    }
    if notes.Some? {
      o := o.(notes := notes.value);
    }
    o := o.(updatedAt := now, history := history);
  }

  /**
   * An update takes a given status and payment status, logs "Status -> S"
   * and then "Payment -> P" at `now`, each exactly when that value really changes, lets `notes` win over
   * `requested_time`, which replaces the notes when `notes` is absent, and leaves the id, number, creation, guest, room, menu
   * version and total alone.
   */
  lemma UpdatedEffect(
    o: Order, status: Option<string>, paymentStatus: Option<string>,
    requestedTime: Option<string>, notes: Option<string>, now: Instant)
    ensures var o' := Updated(o, status, paymentStatus, requestedTime, notes, now);
      && o'.status == (if Truthy(status) then status.value else o.status)
      && o'.paymentStatus == (if Truthy(paymentStatus) then paymentStatus.value else o.paymentStatus)
      && o'.history == o.history
                       + (if o'.status != o.status then [HistoryEntry(now, "Status -> " + o'.status)] else [])
                       + (if o'.paymentStatus != o.paymentStatus
                          then [HistoryEntry(now, "Payment -> " + o'.paymentStatus)] else [])
      && (notes.Some? ==> o'.notes == notes.value)
      && (notes.None? && Truthy(requestedTime) ==> o'.notes == requestedTime.value)
      && (notes.None? && !Truthy(requestedTime) ==> o'.notes == o.notes)
      && o'.updatedAt == now
      && o'.(status := o.status, paymentStatus := o.paymentStatus, notes := o.notes,
             updatedAt := o.updatedAt, history := o.history) == o
  {
  }

  /** Repeating an update at the same instant changes nothing more and logs nothing more. */
  lemma UpdateIdempotent(
    o: Order, status: Option<string>, paymentStatus: Option<string>,
    requestedTime: Option<string>, notes: Option<string>, now: Instant)
    ensures var o' := Updated(o, status, paymentStatus, requestedTime, notes, now);
      Updated(o', status, paymentStatus, requestedTime, notes, now) == o'
  {
  }

  /** An update keeps an order consistent with its unchanged lines. */
  lemma UpdatedConsistent(
    id: string, o: Order, items: seq<OrderItem>, status: Option<string>, paymentStatus: Option<string>,
    requestedTime: Option<string>, notes: Option<string>, now: Instant)
    requires Consistent(id, o, items)
    ensures Consistent(id, Updated(o, status, paymentStatus, requestedTime, notes, now), items)
  {
    UpdatedEffect(o, status, paymentStatus, requestedTime, notes, now);
  }

  const WhatsappAction: string := "WhatsApp sent to kitchen"

  /** The order after the kitchen was notified at `now`; its update time is not touched. */
  function Notified(o: Order, now: Instant): Order
  {
    o.(history := o.history + [HistoryEntry(now, WhatsappAction)])
  }

  /** Notifying only logs one entry and keeps the order consistent. */
  lemma NotifiedConsistent(id: string, o: Order, items: seq<OrderItem>, now: Instant)
    requires Consistent(id, o, items)
    ensures var o' := Notified(o, now);
      && Consistent(id, o', items)
      && o'.history[..|o.history|] == o.history
      && o'.history[|o.history|..] == [HistoryEntry(now, WhatsappAction)]
      && o'.(history := o.history) == o
  {
  }

  /** The values of a store whose orders are filed under their own ids are exactly its orders. */
  lemma StoredOrdersMembers(keys: seq<string>, orders: map<string, Order>, o: Order)
    requires forall k | k in keys :: k in orders
    requires forall k | k in keys :: orders[k].id == k
    requires forall k | k in orders :: k in keys
    ensures o in StoredOrders(keys, orders) <==> o.id in orders && orders[o.id] == o
  {
    var stored := StoredOrders(keys, orders);
    if o.id in orders && orders[o.id] == o {
      var i :| 0 <= i < |keys| && keys[i] == o.id;
      assert stored[i] == o;
    }
  }

  /**
   * The invariant of the two stores: the key list is the Map's key set
   * without repeats, both maps have the same keys, and every order is
   * consistent with its lines.
   */
  ghost predicate StoreInvariant(keys: seq<string>, orders: map<string, Order>, orderItems: map<string, seq<OrderItem>>)
  {
    && Distinct(keys)
    && (forall k :: k in keys <==> k in orders)
    && orderItems.Keys == orders.Keys
    && (forall k | k in orders :: Consistent(k, orders[k], orderItems[k]))
  }

  /** `set` on both maps with a consistent order keeps the invariant; a new key goes to the end of the key list. */
  lemma StoreSet(
    keys: seq<string>, orders: map<string, Order>, orderItems: map<string, seq<OrderItem>>,
    id: string, o: Order, items: seq<OrderItem>)
    requires StoreInvariant(keys, orders, orderItems)
    requires Consistent(id, o, items)
    ensures StoreInvariant(if id in orders then keys else keys + [id], orders[id := o], orderItems[id := items])
  {
    if id !in orders {
      var keys' := keys + [id];
      forall i, j | 0 <= i < j < |keys'|
        ensures keys'[i] != keys'[j]
      {
        if j == |keys| {
          assert keys'[i] == keys[i] && keys[i] in orders;
        }
      }
    }
  }

  /** Under the invariant, the Map's values are exactly the orders filed under their own ids. */
  lemma StoredOrdersOfStore(keys: seq<string>, orders: map<string, Order>, orderItems: map<string, seq<OrderItem>>)
    requires StoreInvariant(keys, orders, orderItems)
    ensures forall o :: o in StoredOrders(keys, orders) <==> o.id in orders && orders[o.id] == o
    ensures forall k | k in orders :: orders[k].id == k
  {
    forall o
      ensures o in StoredOrders(keys, orders) <==> o.id in orders && orders[o.id] == o
    {
      StoredOrdersMembers(keys, orders, o);
    }
  }

  /** The list handler's three optional filters, applied in turn. */
  method ApplyFilters(os: seq<Order>, date: Option<DateQuery>, status: Option<string>, roomNo: Option<string>)
    returns (filtered: seq<Order>)
    ensures forall o :: o in filtered <==> o in os && Listed(o, date, status, roomNo)
    ensures IsSubsequence(filtered, os)
  {
    filtered := os;
    SubsequenceRefl(os);
    if DateGiven(date) {
      filtered := Where(filtered, ByDate(date.value));
    }
    if Truthy(status) {
      var next := Where(filtered, ByStatus(status.value));
      SubsequenceTrans(next, filtered, os);
      filtered := next;
    }
    if Truthy(roomNo) {
      var next := Where(filtered, ByRoom(roomNo.value));
      SubsequenceTrans(next, filtered, os);
      filtered := next;
    }
  }

  /** Each view is a given order with its own lines, and each given order has its view. */
  lemma ViewsMembers(os: seq<Order>, orderItems: map<string, seq<OrderItem>>)
    ensures forall v | v in Views(os, orderItems) :: v.order in os && v.items == ItemsOf(orderItems, v.order.id)
    ensures forall o | o in os :: OrderView(o, ItemsOf(orderItems, o.id)) in Views(os, orderItems)
  {
    var views := Views(os, orderItems);
    forall v | v in views
      ensures v.order in os && v.items == ItemsOf(orderItems, v.order.id)
    {
      var i :| 0 <= i < |views| && views[i] == v;
    }
    forall o | o in os
      ensures OrderView(o, ItemsOf(orderItems, o.id)) in views
    {
      var i :| 0 <= i < |os| && os[i] == o;
      assert views[i] == OrderView(o, ItemsOf(orderItems, o.id));
    }
  }

  /** A store's values have no repeats: each is filed under its own, distinct key. */
  lemma StoredOrdersDistinct(keys: seq<string>, orders: map<string, Order>)
    requires Distinct(keys)
    requires forall k | k in keys :: k in orders && orders[k].id == k
    ensures Distinct(StoredOrders(keys, orders))
  {
    var stored := StoredOrders(keys, orders);
    forall i, j | 0 <= i < j < |stored|
      ensures stored[i] != stored[j]
    {
      assert stored[i].id == keys[i] && stored[j].id == keys[j];
    }
  }

  /**
   * Filtering `ordersStore.values()` keeps exactly the stored orders that
   * pass, filed under their own ids, without repeats.
   */
  lemma FilteredStore(
    keys: seq<string>, orders: map<string, Order>, orderItems: map<string, seq<OrderItem>>, filtered: seq<Order>,
    date: Option<DateQuery>, status: Option<string>, roomNo: Option<string>)
    requires StoreInvariant(keys, orders, orderItems)
    requires forall o :: o in filtered <==> o in StoredOrders(keys, orders) && Listed(o, date, status, roomNo)
    requires IsSubsequence(filtered, StoredOrders(keys, orders))
    ensures forall k | k in orders :: orders[k].id == k
    ensures forall o :: o in filtered <==> o.id in orders && orders[o.id] == o && Listed(o, date, status, roomNo)
    ensures Distinct(filtered)
  {
    StoredOrdersOfStore(keys, orders, orderItems);
    StoredOrdersDistinct(keys, orders);
    DistinctSubsequence(filtered, StoredOrders(keys, orders));
  }

  /** Sorting keeps exactly the same orders and puts them newest first. */
  lemma SortedMembers(os: seq<Order>)
    ensures forall o :: o in SortNewestFirst(os) <==> o in os
    ensures NewestFirst(SortNewestFirst(os))
  {
    SortNewestFirstCorrect(os);
    assert forall o :: o in SortNewestFirst(os) <==> o in multiset(os);
  }

  /**
   * Sorting the filtered orders and attaching their lines yields the listed
   * orders newest first, each a stored order with its own lines, every
   * stored order that passes the filters among them, and none of them twice.
   */
  lemma ListedViews(
    orders: map<string, Order>, orderItems: map<string, seq<OrderItem>>, filtered: seq<Order>,
    date: Option<DateQuery>, status: Option<string>, roomNo: Option<string>)
    requires forall k | k in orders :: orders[k].id == k
    requires forall o :: o in filtered <==> o.id in orders && orders[o.id] == o && Listed(o, date, status, roomNo)
    requires Distinct(filtered)
    ensures var views := Views(SortNewestFirst(filtered), orderItems);
      && (forall i, j | 0 <= i < j < |views| :: views[i].order.createdAt >= views[j].order.createdAt)
      && (forall i, j | 0 <= i < j < |views| :: views[i].order.id != views[j].order.id)
      && (forall v | v in views ::
            && v.order.id in orders && v.order == orders[v.order.id]
            && v.items == ItemsOf(orderItems, v.order.id)
            && Listed(v.order, date, status, roomNo))
      && (forall k | k in orders && Listed(orders[k], date, status, roomNo) ::
            OrderView(orders[k], ItemsOf(orderItems, k)) in views)
  {
    var sorted := SortNewestFirst(filtered);
    SortedMembers(filtered);
    ViewsMembers(sorted, orderItems);
    SortNewestFirstCorrect(filtered);
    DistinctPermutation(filtered, sorted);
    forall i, j | 0 <= i < j < |sorted|
      ensures sorted[i].id != sorted[j].id
    {
      assert sorted[i] in filtered && sorted[j] in filtered;
    }
    forall k | k in orders && Listed(orders[k], date, status, roomNo)
      ensures orders[k] in sorted
    {
      assert orders[k] in filtered;
    }
  }

  /**
   * The list handler's work on the two stores: filter `ordersStore.values()`,
   * sort newest first and attach each order's lines.
   */
  method ListStored(
    keys: seq<string>, orders: map<string, Order>, orderItems: map<string, seq<OrderItem>>,
    date: Option<DateQuery>, status: Option<string>, roomNo: Option<string>)
    returns (views: seq<OrderView>)
    requires StoreInvariant(keys, orders, orderItems)
    ensures forall i, j | 0 <= i < j < |views| :: views[i].order.createdAt >= views[j].order.createdAt
    ensures forall i, j | 0 <= i < j < |views| :: views[i].order.id != views[j].order.id
    ensures forall v | v in views ::
              && v.order.id in orders && v.order == orders[v.order.id]
              && v.items == ItemsOf(orderItems, v.order.id)
              && Listed(v.order, date, status, roomNo)
    ensures forall k | k in orders && Listed(orders[k], date, status, roomNo) ::
              OrderView(orders[k], ItemsOf(orderItems, k)) in views
  {
    var filtered := ApplyFilters(StoredOrders(keys, orders), date, status, roomNo);
    FilteredStore(keys, orders, orderItems, filtered, date, status, roomNo);
    ListedViews(orders, orderItems, filtered, date, status, roomNo);
    views := Views(SortNewestFirst(filtered), orderItems);
  }

  /** `req.body.items || []`: an absent list is empty; a given list, even an empty one, is kept. */
  function RequestedLines(items: Option<seq<PayloadItem>>): seq<PayloadItem>
  {
    if items.Some? then items.value else []
  }

  // ---------------------------------------------------------------------
  // The server
  // ---------------------------------------------------------------------

  /**
   * The running server: the configured passphrase (the source re-reads the
   * environment on every request; nothing changes it) and the two in-memory
   * maps `ordersStore` and `orderItemsStore`, both keyed by order id.
   */
  class Server {
    const passphrase: string
    /** The keys of `ordersStore` in insertion order, which `Map.values()` follows. */
    var keys: seq<string>
    var orders: map<string, Order>
    var orderItems: map<string, seq<OrderItem>>

    ghost predicate Valid()
      reads this
    {
      StoreInvariant(keys, orders, orderItems)
    }

    /** Start-up under the `ADMIN_PASSPHRASE` environment value: both stores empty. */
    constructor (env: Option<string>)
      ensures Valid()
      ensures passphrase == ConfiguredPassphrase(env)
      ensures keys == [] && orders == map[] && orderItems == map[]
    {
      passphrase := ConfiguredPassphrase(env);
      keys, orders, orderItems := [], map[], map[];
    }

    /**
     * POST /api/orders. `id`, `clock`, `now` and `itemIds` are the fresh UUID,
     * the clock readings and the line UUIDs the handler draws. An id already
     * in the store is overwritten in place, as `Map.set` does.
     */
    method CreateOrder(
      header: Option<string>, query: Option<string>, payload: OrderPayload,
      id: string, clock: ClockReading, now: Instant, itemIds: seq<string>)
      returns (r: Response)
      requires Valid()
      requires |itemIds| == |payload.items|
      modifies this
      ensures Valid()
      ensures !Authorized(header, query, passphrase) ==>
        r == Unauthorized && keys == old(keys) && orders == old(orders) && orderItems == old(orderItems)
      ensures Authorized(header, query, passphrase) ==>
        && orders == old(orders)[id := NewOrder(id, MakeOrderNo(clock), now, payload)]
        && orderItems == old(orderItems)[id := NewItems(id, itemIds, payload.items)]
        && keys == (if id in old(orders) then old(keys) else old(keys) + [id])
        && r == OrderJson(OrderView(orders[id], orderItems[id]))
    {
      if !Authorized(header, query, passphrase) {
        return Unauthorized;
      }
      var orderNo := MakeOrderNo(clock);
      var total := SumRequested(payload.items);
      var order := Order(
        id, orderNo, now, now,
        OrElse(payload.guestName, ""), OrElse(payload.roomNo, ""), OrElse(payload.notes, ""),
        OrElse(payload.menuVersion, "RestoVersion"),
        "New", "Not Paid", [HistoryEntry(now, "Created")], total);
      var items := NewItems(id, itemIds, payload.items);
      NewOrderConsistent(id, orderNo, now, payload, itemIds);
      StoreSet(keys, orders, orderItems, id, order, items);
      if id !in orders {
        keys := keys + [id];
      }
      orders := orders[id := order];
      orderItems := orderItems[id := items];
      r := OrderJson(OrderView(order, items));
    }

    /** GET /api/orders/:id. */
    method GetOrder(header: Option<string>, query: Option<string>, id: string) returns (r: Response)
      ensures !Authorized(header, query, passphrase) ==> r == Unauthorized
      ensures Authorized(header, query, passphrase) && id !in orders ==> r == NotFound("not found")
      ensures Authorized(header, query, passphrase) && id in orders ==>
        r == OrderJson(OrderView(orders[id], ItemsOf(orderItems, id)))
    {
      if !Authorized(header, query, passphrase) {
        return Unauthorized;
      }
      if id !in orders {
        return NotFound("not found");
      }
      r := OrderJson(OrderView(orders[id], ItemsOf(orderItems, id)));
    }

    /**
     * GET /api/orders: the stored orders that pass every given filter,
     * newest first, each once and with its lines.
     */
    method ListOrders(
      header: Option<string>, query: Option<string>,
      date: Option<DateQuery>, status: Option<string>, roomNo: Option<string>)
      returns (r: Response)
      requires Valid()
      ensures !Authorized(header, query, passphrase) ==> r == Unauthorized
      ensures Authorized(header, query, passphrase) ==>
        && r.OrderListJson?
        && (forall i, j | 0 <= i < j < |r.views| :: r.views[i].order.createdAt >= r.views[j].order.createdAt)
        && (forall i, j | 0 <= i < j < |r.views| :: r.views[i].order.id != r.views[j].order.id)
        && (forall v | v in r.views ::
              && v.order.id in orders && v.order == orders[v.order.id]
              && v.items == ItemsOf(orderItems, v.order.id)
              && Listed(v.order, date, status, roomNo))
        && (forall k | k in orders && Listed(orders[k], date, status, roomNo) ::
              OrderView(orders[k], ItemsOf(orderItems, k)) in r.views)
    {
      if !Authorized(header, query, passphrase) {
        return Unauthorized;
      }
      var views := ListStored(keys, orders, orderItems, date, status, roomNo);
      r := OrderListJson(views);
    }

    /**
     * POST /api/orders/:id/items: appends the requested lines, raises the
     * total by their value, stamps the update time, logs "Added N items" and
     * marks the order "Updated".
     */
    method AddItems(
      header: Option<string>, query: Option<string>, id: string,
      newItems: Option<seq<PayloadItem>>, itemIds: seq<string>, now: Instant)
      returns (r: Response)
      requires Valid()
      requires |itemIds| == |RequestedLines(newItems)|
      modifies this
      ensures Valid()
      ensures keys == old(keys)
      ensures !Authorized(header, query, passphrase) ==> r == Unauthorized
      ensures Authorized(header, query, passphrase) && id !in old(orders) ==> r == NotFound("order not found")
      ensures !Authorized(header, query, passphrase) || id !in old(orders) ==>
        orders == old(orders) && orderItems == old(orderItems)
      ensures Authorized(header, query, passphrase) && id in old(orders) ==>
        var lines := RequestedLines(newItems);
        && orders == old(orders)[id := WithItems(old(orders)[id], |lines|, PayloadTotal(lines), now)]
        && orderItems == old(orderItems)[id := old(orderItems)[id] + NewItems(id, itemIds, lines)]
        && r == OrderJson(OrderView(orders[id], orderItems[id]))
    {
      if !Authorized(header, query, passphrase) {
        return Unauthorized;
      }
      if id !in orders {
        return NotFound("order not found");
      }
      var order := orders[id];
      var lines := RequestedLines(newItems);
      var items := ItemsOf(orderItems, id);
      var toAdd, addedTotal := PrepareLines(id, lines, itemIds);
      WithItemsConsistent(id, order, items, lines, itemIds, now);
      items := items + toAdd;
      order := order.(total := order.total + addedTotal, updatedAt := now);
      order := order.(history := order.history + [HistoryEntry(order.updatedAt, AddedAction(|lines|))]);
      order := order.(status := "Updated");
      StoreSet(keys, orders, orderItems, id, order, items);
      orderItems := orderItems[id := items];
      orders := orders[id := order];
      r := OrderJson(OrderView(order, items));
    }

    /**
     * PUT /api/orders/:id: takes the body's status, payment status,
     * requested time and notes; see `Updated` and `UpdatedEffect`.
     */
    method UpdateOrder(
      header: Option<string>, query: Option<string>, id: string,
      status: Option<string>, paymentStatus: Option<string>,
      requestedTime: Option<string>, notes: Option<string>, now: Instant)
      returns (r: Response)
      requires Valid()
      modifies this
      ensures Valid()
      ensures keys == old(keys) && orderItems == old(orderItems)
      ensures !Authorized(header, query, passphrase) ==> r == Unauthorized
      ensures Authorized(header, query, passphrase) && id !in old(orders) ==> r == NotFound("order not found")
      ensures !Authorized(header, query, passphrase) || id !in old(orders) ==> orders == old(orders)
      ensures Authorized(header, query, passphrase) && id in old(orders) ==>
        && orders == old(orders)[id := Updated(old(orders)[id], status, paymentStatus, requestedTime, notes, now)]
        && r == OrderJson(OrderView(orders[id], orderItems[id]))
    {
      if !Authorized(header, query, passphrase) {
        return Unauthorized;
      }
      if id !in orders {
        return NotFound("order not found");
      }
      var order := orders[id];
      UpdatedConsistent(id, order, orderItems[id], status, paymentStatus, requestedTime, notes, now);
      order := ApplyUpdate(order, status, paymentStatus, requestedTime, notes, now);
      StoreSet(keys, orders, orderItems, id, order, orderItems[id]);
      orders := orders[id := order];
      r := OrderJson(OrderView(order, ItemsOf(orderItems, id)));
    }

    /** POST /api/orders/:id/send-whatsapp: the notification is simulated; only the history records it. */
    method SendWhatsapp(header: Option<string>, query: Option<string>, id: string, now: Instant)
      returns (r: Response)
      requires Valid()
      modifies this
      ensures Valid()
      ensures keys == old(keys) && orderItems == old(orderItems)
      ensures !Authorized(header, query, passphrase) ==> r == Unauthorized
      ensures Authorized(header, query, passphrase) && id !in old(orders) ==> r == NotFound("order not found")
      ensures !Authorized(header, query, passphrase) || id !in old(orders) ==> orders == old(orders)
      ensures Authorized(header, query, passphrase) && id in old(orders) ==>
        orders == old(orders)[id := Notified(old(orders)[id], now)] && r == SentJson
    {
      if !Authorized(header, query, passphrase) {
        return Unauthorized;
      }
      if id !in orders {
        return NotFound("order not found");
      }
      var order := orders[id];
      NotifiedConsistent(id, order, orderItems[id], now);
      order := order.(history := order.history + [HistoryEntry(now, WhatsappAction)]);
      StoreSet(keys, orders, orderItems, id, order, orderItems[id]);
      orders := orders[id := order];
      r := SentJson;
    }

    /**
     * GET /api/export/csv: a header line, then one line per stored order
     * created within the requested day, in store order; no date is a 400.
     */
    method ExportCsv(header: Option<string>, query: Option<string>, date: Option<DateQuery>)
      returns (r: Response)
      requires Valid()
      ensures !Authorized(header, query, passphrase) ==> r == Unauthorized
      ensures Authorized(header, query, passphrase) && !DateGiven(date) ==> r == BadRequest("date required")
      ensures Authorized(header, query, passphrase) && DateGiven(date) ==>
        var rows := Where(StoredOrders(keys, orders), ByDate(date.value));
        r == CsvFile("orders-" + date.value.text + ".csv", Join(CsvLines(rows, orderItems), "\n"))
    {
      if !Authorized(header, query, passphrase) {
        return Unauthorized;
      }
      if !DateGiven(date) {
        return BadRequest("date required");
      }
      var rows := Where(StoredOrders(keys, orders), ByDate(date.value));
      var lines := RenderLines(rows, orderItems);
      r := CsvFile("orders-" + date.value.text + ".csv", Join(lines, "\n"));
    }
  }
}
