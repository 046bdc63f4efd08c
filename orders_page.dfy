/**
 * The order list page (client/pages/Orders.tsx): the client-side search over
 * fetched orders, the status badge colours, the query it sends for the list
 * and the guard in front of the CSV export.
 */
module OrdersPage {
  import opened Common
  import opened Text
  import opened OrderStore

  /** An order as the page receives it from the list endpoint. */
  datatype OrderRow = OrderRow(
    id: string,
    orderNo: string,
    guestName: string,
    roomNo: string,
    total: int,
    status: string,
    paymentStatus: string)

  // ---------------------------------------------------------------------
  // Search
  // ---------------------------------------------------------------------

  /** The lower-cased term occurs in the lower-cased order number, guest name or room. */
  predicate MatchesSearch(o: OrderRow, term: string)
  {
    var t := Lower(term);
    Contains(Lower(o.orderNo), t) || Contains(Lower(o.guestName), t) || Contains(Lower(o.roomNo), t)
  }

  /** The search effect's `orders.filter(...)`. */
  function FilterOrders(orders: seq<OrderRow>, term: string): (r: seq<OrderRow>)
    ensures forall o :: o in r <==> o in orders && MatchesSearch(o, term)
    ensures IsSubsequence(r, orders)
  {
    if orders == [] then []
    else
      var last := orders[|orders| - 1];
      var rest := FilterOrders(orders[..|orders| - 1], term);
      assert orders[..|orders| - 1] + [last] == orders;
      if MatchesSearch(last, term) then
        rest + [last]
      else
        SubsequenceExtend(rest, orders[..|orders| - 1], last);
        rest
  }

  /** An empty search box keeps every fetched order, in order. */
  lemma {:induction false} EmptySearchKeepsAll(orders: seq<OrderRow>)
    ensures FilterOrders(orders, "") == orders
  {
    if orders != [] {
      var last := orders[|orders| - 1];
      EmptySearchKeepsAll(orders[..|orders| - 1]);
      ContainsEmpty(Lower(last.orderNo));
      assert Lower("") == "";
      assert orders[..|orders| - 1] + [last] == orders;
    }
  }

  /** Case does not matter in the search term: it is lower-cased before the comparison. */
  lemma {:induction false} SearchIgnoresTermCase(orders: seq<OrderRow>, term: string)
    ensures FilterOrders(orders, Lower(term)) == FilterOrders(orders, term)
  {
    LowerIdempotent(term);
    if orders != [] {
      SearchIgnoresTermCase(orders[..|orders| - 1], term);
    }
  }

  /** Every fetched order is found by its own order number. */
  lemma SearchFindsOwnNumber(orders: seq<OrderRow>, o: OrderRow)
    requires o in orders
    ensures o in FilterOrders(orders, o.orderNo)
  {
    var s := Lower(o.orderNo);
    assert s[0..|s|] == s;
    assert OccursAt(s, s, 0);
  }

  // ---------------------------------------------------------------------
  // Status colour
  // ---------------------------------------------------------------------

  /** The statuses with a colour of their own. */
  const KnownStatuses: seq<string> := ["New", "Preparing", "Ready", "Served", "Completed"]

  const FallbackColor: string := "bg-gray-400"

  /** `getStatusColor`. */
  function StatusColor(status: string): (c: string)
    ensures c == FallbackColor <==> status !in KnownStatuses
  {
    match status
    case "New" => "bg-blue-500"
    case "Preparing" => "bg-yellow-500"
    case "Ready" => "bg-green-500"
    case "Served" => "bg-green-600"
    case "Completed" => "bg-gray-500"
    case _ => FallbackColor
  }

  /** The five known statuses get five different colours. */
  lemma KnownStatusColorsDistinct()
    ensures forall i, j | 0 <= i < j < |KnownStatuses| ::
      StatusColor(KnownStatuses[i]) != StatusColor(KnownStatuses[j])
  {
    assert KnownStatuses == ["New", "Preparing", "Ready", "Served", "Completed"];
  }

  /** An order the server marked "Updated" after adding items is shown in the fallback colour. */
  lemma UpdatedOrdersShowFallback(o: Order, count: nat, added: int, now: Instant)
    ensures StatusColor(WithItems(o, count, added, now).status) == FallbackColor
  {
  }

  // ---------------------------------------------------------------------
  // Requests
  // ---------------------------------------------------------------------

  /** A URL query string as its name-value pairs. */
  type QueryParams = seq<(string, string)>

  /** `URLSearchParams.get`: a value is found iff some pair carries `name` (the first such pair's value). */
  function Param(params: QueryParams, name: string): (r: Option<string>)
    ensures r.Some? <==> exists i | 0 <= i < |params| :: params[i].0 == name
  {
    if params == [] then None
    else if params[0].0 == name then Some(params[0].1)
    else Param(params[1..], name)
  }

  /** The list request's parameters: `date` when a date is chosen, `status` when a status is chosen. */
  function ListQuery(selectedDate: string, selectedStatus: Option<string>): QueryParams
  {
    (if selectedDate != "" then [("date", selectedDate)] else [])
    + (if Truthy(selectedStatus) then [("status", selectedStatus.value)] else [])
  }

  /**
   * Reading the list request's parameters back with `Param` gives `date` iff
   * a date is selected, with that date, and `status` iff a non-empty status
   * is selected, with that status.
   */
  lemma ListQueryReadBack(selectedDate: string, selectedStatus: Option<string>)
    ensures Param(ListQuery(selectedDate, selectedStatus), "date")
            == (if selectedDate != "" then Some(selectedDate) else None)
    ensures Param(ListQuery(selectedDate, selectedStatus), "status")
            == (if Truthy(selectedStatus) then selectedStatus else None)
    ensures Truthy(Param(ListQuery(selectedDate, selectedStatus), "status")) <==> Truthy(selectedStatus)
  {
    var q := ListQuery(selectedDate, selectedStatus);
    if selectedDate != "" {
      assert q[0] == ("date", selectedDate);
      if Truthy(selectedStatus) {
        assert q[1..] == [("status", selectedStatus.value)];
      } else {
        assert q[1..] == [];
      }
    }
  }

  /** What the export button asks for: the date to send and the name to save the file under. */
  datatype ExportRequest = ExportRequest(date: string, download: string)

  /** `handleExportCSV`: without a selected date nothing is requested. */
  function ExportAction(selectedDate: string): (r: Option<ExportRequest>)
    ensures r.None? <==> selectedDate == ""
    ensures r.Some? ==> r.value.date == selectedDate
  {
    if selectedDate == "" then None
    else Some(ExportRequest(selectedDate, "orders-" + selectedDate + ".csv"))
  }
}
