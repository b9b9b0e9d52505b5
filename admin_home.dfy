/** The admin dashboard (`AdminHome`): the fetched orders, the selections,
    and the figures and sorted table computed from them. */
module AdminHome {
  import opened Common
  import opened OrderPipeline

  datatype DashboardState = DashboardState(orders: seq<Order>, searchTerm: string, currentSearchTerm: string,
                                           selectedMonth: string, selectedYear: string, failed: bool)

  class Dashboard {
    var orders: seq<Order>
    /** The committed search term the filters use. */
    var searchTerm: string
    /** The text in the search box. */
    var currentSearchTerm: string
    var selectedMonth: string
    var selectedYear: string
    var failed: bool

    function State(): DashboardState
      reads this
    {
      DashboardState(orders, searchTerm, currentSearchTerm, selectedMonth, selectedYear, failed)
    }

    constructor ()
      ensures State() == DashboardState([], "", "", "", "", false)
    {
      orders := [];
      searchTerm := "";
      currentSearchTerm := "";
      selectedMonth := "";
      selectedYear := "";
      failed := false;
    }

    /** `fetchDashboardData` with its reply: the orders are replaced by the
        reply's content (none when it is missing or not an array); a thrown
        error keeps the orders and sets the error. */
    method Load(reply: OrdersReply)
      modifies this
      ensures State() == old(State()).(
        orders := if Loaded(reply).Some? then Loaded(reply).value else old(orders),
        failed := Loaded(reply).None?)
    {
      failed := false;
      var loaded := Loaded(reply);
      if loaded.None? {
        failed := true;
      } else {
        orders := loaded.value;
      }
    }

    /** Typing in the search box changes only the box, not the filter. */
    method TypeSearch(value: string)
      modifies this
      ensures State() == old(State()).(currentSearchTerm := value)
    {
      currentSearchTerm := value;
    }

    /** `handleSearch`: the box's text becomes the filter's term. */
    method HandleSearch()
      modifies this
      ensures State() == old(State()).(searchTerm := old(currentSearchTerm))
    {
      searchTerm := currentSearchTerm;
    }

    /** `handleKeyDown`: only Enter commits the search. */
    method HandleKeyDown(key: string)
      modifies this
      ensures State() == if key == "Enter" then old(State()).(searchTerm := old(currentSearchTerm)) else old(State())
    {
      if key == "Enter" {
        HandleSearch();
      }
    }

    method SelectMonth(value: string)
      modifies this
      ensures State() == old(State()).(selectedMonth := value)
    {
      selectedMonth := value;
    }

    method SelectYear(value: string)
      modifies this
      ensures State() == old(State()).(selectedYear := value)
    {
      selectedYear := value;
    }

    /** The figures and the table: customers, revenue and the sorted table
        come from the filtered orders; "total orders" counts every fetched
        order, so it is never below the number listed. */
    method View() returns (s: Summary, totalOrders: int)
      ensures s.filtered == Filtered(orders, selectedYear, selectedMonth, searchTerm)
      ensures s.totalCustomers == |CustomerIds(s.filtered)|
      ensures s.totalRevenue == Revenue(s.filtered)
      ensures s.display == SortForDisplay(s.filtered)
      ensures totalOrders == |orders| && |s.display| <= totalOrders
    {
      s := Summarize(orders, selectedYear, selectedMonth, searchTerm);
      totalOrders := |orders|;
      DisplayKeepsFigures(s.filtered);
    }
  }

  /** Typing a term without committing it leaves the listed orders as they
      were. */
  method TypingDoesNotFilter(d: Dashboard, text: string) returns (before: seq<Order>, after: seq<Order>)
    modifies d
    ensures before == after
  {
    var s1, _ := d.View();
    d.TypeSearch(text);
    var s2, _ := d.View();
    before, after := s1.filtered, s2.filtered;
  }
}
