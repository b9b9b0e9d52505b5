/** The order statistics shared by the admin dashboard and the order manager:
    the year/month/search filters, the distinct-customer count, the revenue
    of completed orders and the display order. An order's date is given as
    its local year, month (1-12) and timestamp. */
module OrderPipeline {
  import opened Common

  const Pending: string := "PENDING"
  const Completed: string := "COMPLETED"

  /** `usersResponse` of an order; a name part the backend leaves out is `None`. */
  datatype Customer = Customer(id: int, firstName: Option<string>, lastName: Option<string>)

  datatype Order = Order(orderId: int, totalAmount: int, status: string,
                         year: int, month: int, timestamp: int, user: Option<Customer>)

  // -----------------------------------------------------------------------
  // Filtering

  /** `"undefined"` for a name part that is absent, as string concatenation
      renders it. */
  function NamePart(part: Option<string>): string {
    if part.Some? then part.value else "undefined"
  }

  /** `usersResponse?.firstName + ' ' + usersResponse?.lastName`. */
  function FullName(o: Order): string {
    if o.user.Some? then NamePart(o.user.value.firstName) + " " + NamePart(o.user.value.lastName)
    else "undefined undefined"
  }

  /** The year filter compares the year's decimal string with the selection. */
  predicate MatchesYear(o: Order, selectedYear: string) {
    IntToString(o.year) == selectedYear
  }

  /** The month filter compares the two-digit month with the selection. */
  predicate MatchesMonth(o: Order, selectedMonth: string) {
    PadTwo(IntToString(o.month)) == selectedMonth
  }

  /** The search: the order id's digits contain the term, or the lowercased
      full name contains the lowercased term. */
  predicate MatchesSearch(o: Order, searchTerm: string) {
    Includes(IntToString(o.orderId), searchTerm) || Includes(ToLower(FullName(o)), ToLower(searchTerm))
  }

  /** An order passes the filters: each condition applies only when its
      selection is not empty. */
  predicate Matches(o: Order, selectedYear: string, selectedMonth: string, searchTerm: string) {
    && (selectedYear == "" || MatchesYear(o, selectedYear))
    && (selectedMonth == "" || MatchesMonth(o, selectedMonth))
    && (searchTerm == "" || MatchesSearch(o, searchTerm))
  }

  /** `filtered`, narrowed step by step as the memo does. */
  function Filtered(orders: seq<Order>, selectedYear: string, selectedMonth: string, searchTerm: string): seq<Order> {
    var byYear := if selectedYear == "" then orders else Filter(orders, o => MatchesYear(o, selectedYear));
    var byMonth := if selectedMonth == "" then byYear else Filter(byYear, o => MatchesMonth(o, selectedMonth));
    if searchTerm == "" then byMonth else Filter(byMonth, o => MatchesSearch(o, searchTerm))
  }

  /** The step-by-step narrowing is one filter by the conjunction of the
      active conditions: the orders that match all of them, in their order. */
  lemma FilteredIsConjunction(orders: seq<Order>, selectedYear: string, selectedMonth: string, searchTerm: string)
    ensures Filtered(orders, selectedYear, selectedMonth, searchTerm)
      == Filter(orders, o => Matches(o, selectedYear, selectedMonth, searchTerm))
  {
    var y, m, t := selectedYear, selectedMonth, searchTerm;
    var py: Order -> bool := o => y == "" || MatchesYear(o, y);
    var pm: Order -> bool := o => m == "" || MatchesMonth(o, m);
    var pt: Order -> bool := o => t == "" || MatchesSearch(o, t);
    var pym: Order -> bool := o => py(o) && pm(o);
    var all: Order -> bool := o => Matches(o, y, m, t);
    var byYear := if y == "" then orders else Filter(orders, o => MatchesYear(o, y));
    if y == "" { FilterAll(orders, py); } else { FilterSame(orders, o => MatchesYear(o, y), py); }
    assert byYear == Filter(orders, py);
    var byMonth := if m == "" then byYear else Filter(byYear, o => MatchesMonth(o, m));
    if m == "" { FilterAll(byYear, pm); } else { FilterSame(byYear, o => MatchesMonth(o, m), pm); }
    FilterFuse(orders, py, pm, pym);
    assert byMonth == Filter(orders, pym);
    var result := Filtered(orders, y, m, t);
    if t == "" { FilterAll(byMonth, pt); } else { FilterSame(byMonth, o => MatchesSearch(o, t), pt); }
    FilterFuse(orders, pym, pt, all);
  }

  /** With no year, month or search term selected every order is kept. */
  lemma NoFiltersKeepsAll(orders: seq<Order>)
    ensures Filtered(orders, "", "", "") == orders
  {
  }

  /** An order is listed exactly when it is one of the orders and matches
      every active condition. */
  lemma FilteredMembership(orders: seq<Order>, selectedYear: string, selectedMonth: string, searchTerm: string, o: Order)
    ensures o in Filtered(orders, selectedYear, selectedMonth, searchTerm)
      <==> o in orders && Matches(o, selectedYear, selectedMonth, searchTerm)
  {
    FilteredIsConjunction(orders, selectedYear, selectedMonth, searchTerm);
  }

  /** The search finds an order by any run of digits of its id. */
  lemma SearchFindsIdDigits(o: Order, i: int, j: int)
    requires 0 <= i <= j <= |IntToString(o.orderId)|
    ensures MatchesSearch(o, IntToString(o.orderId)[i..j])
  {
    var s := IntToString(o.orderId);
    assert OccursAt(s, s[i..j], i);
    IncludesIff(s, s[i..j]);
  }

  // -----------------------------------------------------------------------
  // Customers

  /** `usersResponse?.id` is truthy: there is a customer and the id is not 0. */
  predicate HasCustomer(o: Order) {
    o.user.Some? && o.user.value.id != 0
  }

  /** The set the `forEach` fills: the truthy customer ids of the orders
      (`CustomerIdsMembers`), never more ids than orders. */
  function CustomerIds(s: seq<Order>): (ids: set<int>)
    ensures |ids| <= |s|
  {
    if s == [] then {}
    else
      var rest := CustomerIds(s[1..]);
      if HasCustomer(s[0]) then {s[0].user.value.id} + rest else rest
  }

  /** An id is in the set exactly when some order has a truthy customer with
      that id. */
  lemma {:induction false} CustomerIdsMembers(s: seq<Order>)
    ensures forall id :: id in CustomerIds(s) <==> exists i :: 0 <= i < |s| && HasCustomer(s[i]) && s[i].user.value.id == id
  {
    if s != [] {
      CustomerIdsMembers(s[1..]);
      assert forall i :: 1 <= i < |s| ==> s[1..][i - 1] == s[i];
    }
  }

  /** One more order adds its truthy customer id, and nothing else. */
  lemma {:induction false} CustomerIdsSnoc(s: seq<Order>, x: Order)
    ensures CustomerIds(s + [x]) == CustomerIds(s) + (if HasCustomer(x) then {x.user.value.id} else {})
  {
    if s == [] {
      assert [x][1..] == [];
    } else {
      assert (s + [x])[1..] == s[1..] + [x];
      CustomerIdsSnoc(s[1..], x);
    }
  }

  /** `customerIds.size`, computed by the `forEach` over the orders. */
  method CountCustomers(filtered: seq<Order>) returns (n: int)
    ensures n == |CustomerIds(filtered)|
    ensures 0 <= n <= |filtered|
  {
    var customerIds: set<int> := {};
    var i := 0;
    while i < |filtered|
      invariant 0 <= i <= |filtered|
      invariant customerIds == CustomerIds(filtered[..i])
    {
      var order := filtered[i];
      assert filtered[..i + 1] == filtered[..i] + [order];
      CustomerIdsSnoc(filtered[..i], order);
      if HasCustomer(order) {
        customerIds := customerIds + {order.user.value.id};
      }
      i := i + 1;
    }
    assert filtered[..i] == filtered;
    n := |customerIds|;
  }

  /** Orders by the same customers count the same: the customer count does
      not depend on how many orders each customer placed or on their order. */
  lemma CustomerCountIgnoresRepeats(s: seq<Order>, o: Order)
    requires o in s
    ensures CustomerIds(s + [o]) == CustomerIds(s)
  {
    CustomerIdsSnoc(s, o);
    CustomerIdsMembers(s);
    var k :| 0 <= k < |s| && s[k] == o;
  }

  // -----------------------------------------------------------------------
  // Revenue

  predicate IsCompleted(o: Order) {
    o.status == Completed
  }

  /** The `reduce`: the running sum over the orders from the left, adding
      `totalAmount` of each completed order. */
  function Revenue(s: seq<Order>): int {
    if s == [] then 0
    else Revenue(s[..|s| - 1]) + (if IsCompleted(s[|s| - 1]) then s[|s| - 1].totalAmount else 0)
  }

  lemma {:induction false} RevenueAppend(a: seq<Order>, b: seq<Order>)
    ensures Revenue(a + b) == Revenue(a) + Revenue(b)
    decreases |b|
  {
    if b == [] {
      assert a + b == a;
    } else {
      assert (a + b)[..|a + b| - 1] == a + b[..|b| - 1];
      RevenueAppend(a, b[..|b| - 1]);
    }
  }

  /** Only completed orders add to the revenue: it is the sum over the
      completed orders alone, and zero when none is completed. */
  lemma {:induction false} RevenueOnlyCompleted(s: seq<Order>)
    ensures Revenue(s) == Revenue(Filter(s, IsCompleted))
    ensures (forall i :: 0 <= i < |s| ==> !IsCompleted(s[i])) ==> Revenue(s) == 0
  {
    RevenueOfCompleted(s);
    if forall i :: 0 <= i < |s| ==> !IsCompleted(s[i]) {
      assert Filter(s, IsCompleted) == [];
    }
  }

  lemma {:induction false} RevenueOfCompleted(s: seq<Order>)
    ensures Revenue(s) == Revenue(Filter(s, IsCompleted))
  {
    if s != [] {
      var rest := Filter(s[1..], IsCompleted);
      var head: seq<Order> := if IsCompleted(s[0]) then [s[0]] else [];
      assert Filter(s, IsCompleted) == head + rest;
      RevenueOfCompleted(s[1..]);
      assert s == [s[0]] + s[1..];
      RevenueAppend([s[0]], s[1..]);
      RevenueAppend(head, rest);
      RevenueSingle(s[0]);
      if !IsCompleted(s[0]) {
        assert Revenue(head) == 0;
      }
    }
  }

  lemma RevenueSingle(o: Order)
    ensures Revenue([o]) == if IsCompleted(o) then o.totalAmount else 0
  {
    assert [o][..0] == [];
  }

  /** The revenue does not depend on the order of the orders. */
  lemma {:induction false} RevenuePermutation(a: seq<Order>, b: seq<Order>)
    requires multiset(a) == multiset(b)
    ensures Revenue(a) == Revenue(b)
    decreases |a|
  {
    if a != [] {
      var x := a[|a| - 1];
      assert x in multiset(b);
      var k :| 0 <= k < |b| && b[k] == x;
      var a' := a[..|a| - 1];
      var b' := b[..k] + b[k + 1..];
      assert a == a' + [x];
      assert b == b[..k] + [x] + b[k + 1..];
      assert multiset(a) == multiset(a') + multiset{x};
      assert multiset(b) == multiset(b[..k]) + multiset{x} + multiset(b[k + 1..]);
      assert multiset(b') == multiset(b[..k]) + multiset(b[k + 1..]);
      assert multiset(a') == multiset(a) - multiset{x};
      assert multiset(b') == multiset(b) - multiset{x};
      RevenuePermutation(a', b');
      RevenueAppend(a', [x]);
      RevenueAppend(b[..k] + [x], b[k + 1..]);
      RevenueAppend(b[..k], [x]);
      RevenueAppend(b[..k], b[k + 1..]);
      assert [x][..0] == [];
    }
  }

  // -----------------------------------------------------------------------
  // Display order

  predicate IsPending(o: Order) {
    o.status == Pending
  }

  /** The comparator's strict order: a pending order before a non-pending
      one; within a group, the newer date first. */
  predicate Before(a: Order, b: Order) {
    (IsPending(a) && !IsPending(b)) || (IsPending(a) == IsPending(b) && a.timestamp > b.timestamp)
  }

  predicate DisplaySorted(s: seq<Order>) {
    forall i, j :: 0 <= i < j < |s| ==> !Before(s[j], s[i])
  }

  /** Inserts `x` after every entry that is not after it (so equal entries
      keep their order, as `Array.prototype.sort` does). */
  function Insert(x: Order, s: seq<Order>): (r: seq<Order>)
    ensures multiset(r) == multiset(s) + multiset{x}
  {
    if s == [] then [x]
    else if Before(x, s[0]) then [x] + s
    else
      assert s == [s[0]] + s[1..];
      [s[0]] + Insert(x, s[1..])
  }

  /** `Before` never holds both ways and its negation chains: the
      comparator is a consistent total preorder. */
  lemma NotBeforeTransitive(a: Order, b: Order, c: Order)
    requires !Before(b, a) && !Before(c, b)
    ensures !Before(c, a)
  {
  }

  /** Inserting into a sorted list keeps it sorted. */
  lemma {:induction false} InsertSorted(x: Order, s: seq<Order>)
    requires DisplaySorted(s)
    ensures DisplaySorted(Insert(x, s))
  {
    if s != [] && !Before(x, s[0]) {
      var t := Insert(x, s[1..]);
      InsertSorted(x, s[1..]);
      assert multiset(t) == multiset(s[1..]) + multiset{x};
      forall j | 0 <= j < |t| ensures !Before(t[j], s[0]) {
        assert t[j] in multiset(t);
        if t[j] != x {
          assert t[j] in multiset(s[1..]);
          var k :| 0 <= k < |s[1..]| && s[1..][k] == t[j];
          assert s[k + 1] == t[j];
        }
      }
      var r := [s[0]] + t;
      forall i, j | 0 <= i < j < |r| ensures !Before(r[j], r[i]) {
        if i > 0 {
          assert r[i] == t[i - 1] && r[j] == t[j - 1];
        }
      }
    } else if s != [] {
      var r := [x] + s;
      forall i, j | 0 <= i < j < |r| ensures !Before(r[j], r[i]) {
        if i == 0 {
          NotBeforeTransitive(x, s[0], s[j - 1]);
        }
      }
    }
  }

  /** `[...filteredOrders].sort(comparator)`: a sorted copy. */
  function SortForDisplay(s: seq<Order>): (r: seq<Order>)
    ensures multiset(r) == multiset(s)
    ensures DisplaySorted(r)
  {
    if s == [] then []
    else
      assert s == s[..|s| - 1] + [s[|s| - 1]];
      var sorted := SortForDisplay(s[..|s| - 1]);
      InsertSorted(s[|s| - 1], sorted);
      Insert(s[|s| - 1], sorted)
  }

  /** In display order every pending order comes before every other order,
      and within each group newer dates come first. */
  lemma DisplayOrder(s: seq<Order>, i: int, j: int)
    requires 0 <= i < j < |SortForDisplay(s)|
    ensures var r := SortForDisplay(s);
      && (IsPending(r[j]) ==> IsPending(r[i]))
      && (IsPending(r[i]) == IsPending(r[j]) ==> r[i].timestamp >= r[j].timestamp)
  {
  }

  /** The sorted copy holds the same orders, so the figures computed from it
      agree with those from the filtered list. */
  lemma DisplayKeepsFigures(s: seq<Order>)
    ensures |SortForDisplay(s)| == |s|
    ensures Revenue(SortForDisplay(s)) == Revenue(s)
    ensures forall o :: o in SortForDisplay(s) <==> o in s
  {
    var r := SortForDisplay(s);
    assert |multiset(r)| == |multiset(s)|;
    RevenuePermutation(r, s);
    forall o ensures o in r <==> o in s {
      assert o in r <==> o in multiset(r);
      assert o in s <==> o in multiset(s);
    }
  }

  // -----------------------------------------------------------------------
  // Loading and the figures shown

  /** `result.content` of the orders reply, when present. */
  datatype Content = OrderArray(items: seq<Order>) | NotArray

  /** The reply to `/orders?page=0&size=100`: a thrown error, or a body whose
      `result.content` may be missing. */
  datatype OrdersReply = OrdersThrew | OrdersJson(content: Option<Content>)

  /** The orders a load installs, or `None` when it fails and the list stays. */
  function Loaded(reply: OrdersReply): (r: Option<seq<Order>>)
    ensures r.None? <==> reply.OrdersThrew?
    ensures reply.OrdersJson? && reply.content.Some? && reply.content.value.OrderArray? ==>
      r == Some(reply.content.value.items)
    ensures reply.OrdersJson? && !(reply.content.Some? && reply.content.value.OrderArray?) ==> r == Some([])
  {
    match reply
    case OrdersThrew => None
    case OrdersJson(Some(OrderArray(items))) => Some(items)
    case OrdersJson(_) => Some([])
  }

  /** The memo's figures together with the sorted copy. */
  datatype Summary = Summary(filtered: seq<Order>, totalCustomers: int, totalRevenue: int, display: seq<Order>)

  /** The memo and the sort, computed from the orders and the selections. */
  method Summarize(orders: seq<Order>, selectedYear: string, selectedMonth: string, searchTerm: string)
    returns (s: Summary)
    ensures s.filtered == Filtered(orders, selectedYear, selectedMonth, searchTerm)
    ensures s.totalCustomers == |CustomerIds(s.filtered)|
    ensures s.totalRevenue == Revenue(s.filtered)
    ensures s.display == SortForDisplay(s.filtered)
  {
    var filtered := Filtered(orders, selectedYear, selectedMonth, searchTerm);
    var count := CountCustomers(filtered);
    s := Summary(filtered, count, Revenue(filtered), SortForDisplay(filtered));
  }
}
