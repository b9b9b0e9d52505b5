/** The order manager (`ManageOrders`): the dashboard's filters and figures,
    plus changing an order's payment status. */
module ManageOrders {
  import opened Common
  import opened OrderPipeline

  const Paid: string := "PAID"
  const Cancelled: string := "CANCELLED"

  /** `statusMapping[payment]`: the order status a payment status implies;
      `None` (`undefined`) for any other payment status. */
  function StatusFor(payment: string): (r: Option<string>)
    ensures r.Some? <==> payment in {Paid, Pending, Cancelled}
    ensures payment == Paid ==> r == Some(Completed)
    ensures payment == Pending ==> r == Some(Pending)
    ensures payment == Cancelled ==> r == Some(Cancelled)
  {
    if payment == Paid then Some(Completed)
    else if payment == Pending then Some(Pending)
    else if payment == Cancelled then Some(Cancelled)
    else None
  }

  /** The order status determines the payment status that led to it. */
  lemma StatusForInjective(p1: string, p2: string)
    requires StatusFor(p1).Some? && StatusFor(p1) == StatusFor(p2)
    ensures p1 == p2
  {
  }

  /** The request body; `orderStatus` is dropped by `JSON.stringify` when it
      is `undefined`. */
  datatype StatusBody = StatusBody(paymentStatus: string, orderStatus: Option<string>)

  datatype StatusRequest = StatusRequest(path: string, body: StatusBody)

  function UpdateRequest(orderId: int, payment: string): (r: StatusRequest)
    ensures r.body.paymentStatus == payment && r.body.orderStatus == StatusFor(payment)
    ensures r.path == "/orders/" + IntToString(orderId) + "/update-status"
  {
    StatusRequest("/orders/" + IntToString(orderId) + "/update-status", StatusBody(payment, StatusFor(payment)))
  }

  datatype ManagerState = ManagerState(orders: seq<Order>, searchTerm: string, currentSearchTerm: string,
                                       selectedMonth: string, selectedYear: string, failed: bool,
                                       updates: seq<StatusRequest>, reloads: nat)

  /** The state after one more `fetchDashboardData` with `reply`: counted as
      a reload; the orders are the reply's (none when it is missing or not an
      array), and a thrown error keeps them and sets the error. */
  function AfterLoad(st: ManagerState, reply: OrdersReply): ManagerState {
    st.(orders := if Loaded(reply).Some? then Loaded(reply).value else st.orders,
        failed := Loaded(reply).None?, reloads := st.reloads + 1)
  }

  class OrderManager {
    var orders: seq<Order>
    var searchTerm: string
    var currentSearchTerm: string
    var selectedMonth: string
    var selectedYear: string
    var failed: bool
    /** The PUT requests sent, in order. */
    var updates: seq<StatusRequest>
    /** How many times the orders were reloaded. */
    var reloads: nat

    function State(): ManagerState
      reads this
    {
      ManagerState(orders, searchTerm, currentSearchTerm, selectedMonth, selectedYear, failed, updates, reloads)
    }

    constructor ()
      ensures State() == ManagerState([], "", "", "", "", false, [], 0)
    {
      orders := [];
      searchTerm := "";
      currentSearchTerm := "";
      selectedMonth := "";
      selectedYear := "";
      failed := false;
      updates := [];
      reloads := 0;
    }

    /** `fetchDashboardData` with its reply, as `AfterLoad` states. */
    method Load(reply: OrdersReply)
      modifies this
      ensures State() == AfterLoad(old(State()), reply)
    {
      failed := false;
      reloads := reloads + 1;
      var loaded := Loaded(reply);
      if loaded.None? {
        failed := true;
      } else {
        orders := loaded.value;
      }
    }

    method TypeSearch(value: string)
      modifies this
      ensures State() == old(State()).(currentSearchTerm := value)
    {
      currentSearchTerm := value;
    }

    method HandleSearch()
      modifies this
      ensures State() == old(State()).(searchTerm := old(currentSearchTerm))
    {
      searchTerm := currentSearchTerm;
    }

    method HandleKeyDown(key: string)
      modifies this
      ensures State() == if key == "Enter" then old(State()).(searchTerm := old(currentSearchTerm)) else old(State())
    {
      if key == "Enter" {
        HandleSearch();
      }
    }

    method SelectMonth(value: string)
      modifies this
      ensures State() == old(State()).(selectedMonth := value)
    {
      selectedMonth := value;
    }

    method SelectYear(value: string)
      modifies this
      ensures State() == old(State()).(selectedYear := value)
    {
      selectedYear := value;
    }

    /** `handleUpdatePaymentStatus(orderId, payment)`: one PUT with both
        statuses; the orders are reloaded only after an OK reply, and a
        failure leaves everything else as it was. */
    method UpdatePaymentStatus(orderId: int, payment: string, ok: bool, reload: OrdersReply)
      modifies this
      ensures var sent := old(State()).(updates := old(updates) + [UpdateRequest(orderId, payment)]);
        State() == if ok then AfterLoad(sent, reload) else sent
    {
      var newOrderStatus := StatusFor(payment);
      updates := updates + [StatusRequest("/orders/" + IntToString(orderId) + "/update-status",
                                          StatusBody(payment, newOrderStatus))];
      if ok {
        Load(reload);
      }
    }

    /** The figures and the table, as on the dashboard. */
    method View() returns (s: Summary)
      ensures s.filtered == Filtered(orders, selectedYear, selectedMonth, searchTerm)
      ensures s.totalCustomers == |CustomerIds(s.filtered)|
      ensures s.totalRevenue == Revenue(s.filtered)
      ensures s.display == SortForDisplay(s.filtered)
    {
      s := Summarize(orders, selectedYear, selectedMonth, searchTerm);
    }
  }
}
