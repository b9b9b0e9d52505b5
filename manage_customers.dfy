/** The customer manager (`ManageCustomers`): one page of users, each with
    the total of their orders, biggest spender first. */
module ManageCustomers {
  import opened Common
  import CardApi

  const PageSize: int := 10

  /** `fetchUsers(page)`: one page of ten users. */
  function UsersPath(page: int): string {
    "/users" + CardApi.Query(page, PageSize)
  }

  /** Different pages are requested under different paths. */
  lemma UsersPathInjective(p: int, q: int)
    requires p != q
    ensures UsersPath(p) != UsersPath(q)
  {
    var a, b := CardApi.Query(p, PageSize), CardApi.Query(q, PageSize);
    if UsersPath(p) == UsersPath(q) {
      assert a == ("/users" + a)[6..] && b == ("/users" + b)[6..];
      CardApi.QueryInjective(p, PageSize, q, PageSize);
    }
  }

  /** `fetchOrders()`: the first thousand orders. */
  const OrdersPath: string := "/orders?page=0&size=1000"

  datatype User = User(id: int, firstName: string, lastName: string, email: string)

  /** An order as this page reads it: its amount and its customer's id,
      `None` when `usersResponse` is missing. */
  datatype CustomerOrder = CustomerOrder(orderId: int, totalAmount: int, userId: Option<int>)

  /** Every order names its customer, so reading `usersResponse.id` never
      throws. */
  predicate AllHaveCustomer(orders: seq<CustomerOrder>) {
    forall i :: 0 <= i < |orders| ==> orders[i].userId.Some?
  }

  datatype UserWithTotal = UserWithTotal(user: User, totalAmount: int)

  /** The reply to a list request: a failure (a non-OK status, a thrown
      error, or no `result`), or `result.content`, which may be missing. */
  datatype Fetch<T> = FetchFailed | FetchOk(content: Option<seq<T>>)

  /** `fetchUsers` / `fetchOrders`: the content, or no items on any failure. */
  function Items<T>(reply: Fetch<T>): (r: seq<T>)
    ensures reply.FetchFailed? ==> r == []
    ensures reply.FetchOk? && reply.content.None? ==> r == []
    ensures reply.FetchOk? && reply.content.Some? ==> r == reply.content.value
  {
    if reply.FetchOk? && reply.content.Some? then reply.content.value else []
  }

  /** The sum of the amounts of the orders placed by `uid`. */
  function SumFor(orders: seq<CustomerOrder>, uid: int): int {
    if orders == [] then 0
    else
      var last := orders[|orders| - 1];
      SumFor(orders[..|orders| - 1], uid) + (if last.userId == Some(uid) then last.totalAmount else 0)
  }

  /** A customer with no order sums to zero. */
  lemma {:induction false} SumForAbsent(orders: seq<CustomerOrder>, uid: int)
    requires forall i :: 0 <= i < |orders| ==> orders[i].userId != Some(uid)
    ensures SumFor(orders, uid) == 0
  {
    if orders != [] {
      SumForAbsent(orders[..|orders| - 1], uid);
    }
  }

  /** The `forEach` that fills `totalMap`: one entry per customer who placed
      an order, holding the sum of that customer's amounts. An order without
      a customer makes the `forEach` throw, and no map comes out. */
  method TotalsByUser(orders: seq<CustomerOrder>) returns (totals: Option<map<int, int>>)
    ensures totals.Some? <==> AllHaveCustomer(orders)
    ensures totals.Some? ==>
      forall uid :: uid in totals.value <==> exists i :: 0 <= i < |orders| && orders[i].userId == Some(uid)
    ensures totals.Some? ==> forall uid :: uid in totals.value ==> totals.value[uid] == SumFor(orders, uid)
  {
    var totalMap := map[];
    var i := 0;
    while i < |orders|
      invariant 0 <= i <= |orders|
      invariant AllHaveCustomer(orders[..i])
      invariant forall uid :: uid in totalMap <==> exists k :: 0 <= k < i && orders[k].userId == Some(uid)
      invariant forall uid :: uid in totalMap ==> totalMap[uid] == SumFor(orders[..i], uid)
    {
      if orders[i].userId.None? {
        return None;
      }
      var uid := orders[i].userId.value;
      if uid !in totalMap || totalMap[uid] == 0 {
        SumForAbsentOrZero(orders, i, uid, totalMap);
        totalMap := totalMap[uid := 0];
      }
      assert orders[..i + 1][..i] == orders[..i];
      totalMap := totalMap[uid := totalMap[uid] + orders[i].totalAmount];
      i := i + 1;
      assert orders[..i][i - 1] == orders[i - 1];
    }
    assert orders[..i] == orders;
    totals := Some(totalMap);
  }

  /** Resetting an entry to 0 when it is missing or already 0 agrees with the
      running sum. */
  lemma SumForAbsentOrZero(orders: seq<CustomerOrder>, i: int, uid: int, totalMap: map<int, int>)
    requires 0 <= i <= |orders|
    requires forall u :: u in totalMap <==> exists k :: 0 <= k < i && orders[k].userId == Some(u)
    requires forall u :: u in totalMap ==> totalMap[u] == SumFor(orders[..i], u)
    requires uid !in totalMap || totalMap[uid] == 0
    ensures SumFor(orders[..i], uid) == 0
  {
    if uid !in totalMap {
      SumForAbsent(orders[..i], uid);
    }
  }

  /** `totalMap[user.id] || 0`. */
  function TotalFor(totalMap: map<int, int>, id: int): (r: int)
    ensures r == if id in totalMap then totalMap[id] else 0
  {
    if id in totalMap && totalMap[id] != 0 then totalMap[id] else 0
  }

  /** The total a user is shown is the sum over exactly that user's orders,
      and zero for a user with no order. */
  lemma TotalForIsSum(orders: seq<CustomerOrder>, totalMap: map<int, int>, id: int)
    requires forall uid :: uid in totalMap <==> exists i :: 0 <= i < |orders| && orders[i].userId == Some(uid)
    requires forall uid :: uid in totalMap ==> totalMap[uid] == SumFor(orders, uid)
    ensures TotalFor(totalMap, id) == SumFor(orders, id)
  {
    if id !in totalMap {
      SumForAbsent(orders, id);
    }
  }

  predicate Descending(s: seq<UserWithTotal>) {
    forall i, j :: 0 <= i < j < |s| ==> s[i].totalAmount >= s[j].totalAmount
  }

  /** The sequence with the entries at `p` and `q` exchanged. */
  function Swap(s: seq<UserWithTotal>, p: int, q: int): (r: seq<UserWithTotal>)
    requires 0 <= p < |s| && 0 <= q < |s|
    ensures multiset(r) == multiset(s)
  {
    s[p := s[q]][q := s[p]]
  }

  /** The test that picks the users with total `t`. */
  function TotalIs(t: int): UserWithTotal -> bool {
    (u: UserWithTotal) => u.totalAmount == t
  }

  /** The users with total `t`, in the order they stand in `s`. */
  function WithTotal(s: seq<UserWithTotal>, t: int): seq<UserWithTotal> {
    Filter(s, TotalIs(t))
  }

  /** Users with equal totals stand in the same relative order in `r` as in
      `s`: what a stable sort keeps. */
  ghost predicate SameTies(r: seq<UserWithTotal>, s: seq<UserWithTotal>) {
    forall t :: WithTotal(r, t) == WithTotal(s, t)
  }

  /** Within one group of equal totals, two neighbours with different
      totals can be exchanged: at most one of them belongs to the group. */
  lemma SwapKeepsTiesAt(a: seq<UserWithTotal>, x: UserWithTotal, y: UserWithTotal, b: seq<UserWithTotal>, t: int)
    requires x.totalAmount != y.totalAmount
    ensures WithTotal(a + [y] + [x] + b, t) == WithTotal(a + [x] + [y] + b, t)
  {
    FilterSwapNeighbours(a, x, y, b, TotalIs(t));
  }

  /** Exchanging two neighbours whose totals differ keeps the order within
      every group of equal totals. */
  lemma SwapKeepsTies(s: seq<UserWithTotal>, k: int)
    requires 0 <= k < |s| - 1 && s[k].totalAmount != s[k + 1].totalAmount
    ensures SameTies(Swap(s, k, k + 1), s)
  {
    var a, x, y, b := s[..k], s[k], s[k + 1], s[k + 2..];
    assert s == a + [x] + [y] + b;
    assert Swap(s, k, k + 1) == a + [y] + [x] + b;
    forall t ensures WithTotal(Swap(s, k, k + 1), t) == WithTotal(s, t) {
      SwapKeepsTiesAt(a, x, y, b, t);
    }
  }

  /** While entry `j` travels forward: the entries before it and the entries
      from it to `i` are each descending, and every entry before it is at
      least every entry after it. */
  predicate Inserting(s: seq<UserWithTotal>, j: int, i: int)
    requires 0 <= j <= i < |s|
  {
    && Descending(s[..j]) && Descending(s[j..i + 1])
    && forall k, m :: 0 <= k < j < m <= i ==> s[k].totalAmount >= s[m].totalAmount
  }

  lemma StartInserting(s: seq<UserWithTotal>, i: int)
    requires 0 <= i < |s| && Descending(s[..i])
    ensures Inserting(s, i, i)
  {
  }

  lemma {:induction false} SwapForward(s: seq<UserWithTotal>, j: int, i: int)
    requires 0 < j <= i < |s| && Inserting(s, j, i)
    requires s[j - 1].totalAmount < s[j].totalAmount
    ensures Inserting(Swap(s, j - 1, j), j - 1, i)
  {
    var t := Swap(s, j - 1, j);
    var before, moving := t[..j - 1], t[j - 1..i + 1];
    forall k, m | 0 <= k < m < |before| ensures before[k].totalAmount >= before[m].totalAmount {
      assert before[k] == s[..j][k] && before[m] == s[..j][m];
    }
    forall k, m | 0 <= k < m < |moving| ensures moving[k].totalAmount >= moving[m].totalAmount {
      assert moving[k] == t[k + j - 1] && moving[m] == t[m + j - 1];
      if k == 0 && m > 1 {
        assert s[j..i + 1][0] == s[j] && s[j..i + 1][m - 1] == s[m + j - 1];
      } else if k > 0 {
        assert s[j..i + 1][k - 1] == s[k + j - 1] && s[j..i + 1][m - 1] == s[m + j - 1];
      }
    }
    forall k, m | 0 <= k < j - 1 < m <= i ensures t[k].totalAmount >= t[m].totalAmount {
      assert s[..j][k] == s[k] && s[..j][j - 1] == s[j - 1];
    }
  }

  lemma {:induction false} StopInserting(s: seq<UserWithTotal>, j: int, i: int)
    requires 0 <= j <= i < |s| && Inserting(s, j, i)
    requires j == 0 || s[j - 1].totalAmount >= s[j].totalAmount
    ensures Descending(s[..i + 1])
  {
    forall k, m | 0 <= k < m <= i ensures s[k].totalAmount >= s[m].totalAmount {
      if m < j {
        assert s[..j][k] == s[k] && s[..j][m] == s[m];
      } else if j <= k {
        assert s[j..i + 1][k - j] == s[k] && s[j..i + 1][m - j] == s[m];
      } else if m == j {
        assert s[..j][k] == s[k] && s[..j][j - 1] == s[j - 1];
      }
    }
  }

  /** One swap of the insertion: the travelling entry moves one place
      forward, and the entries and the order within each group of equal
      totals stay those of `orig`. */
  lemma SwapStep(s: seq<UserWithTotal>, j: int, i: int, orig: seq<UserWithTotal>)
    requires 0 < j <= i < |s| && Inserting(s, j, i)
    requires s[j - 1].totalAmount < s[j].totalAmount
    requires multiset(s) == multiset(orig) && SameTies(s, orig)
    ensures Inserting(Swap(s, j - 1, j), j - 1, i)
    ensures multiset(Swap(s, j - 1, j)) == multiset(orig) && SameTies(Swap(s, j - 1, j), orig)
  {
    SwapForward(s, j, i);
    SwapKeepsTies(s, j - 1);
  }

  /** `usersWithTotal.sort((a, b) => b.totalAmount - a.totalAmount)`, as an
      insertion sort that only swaps strictly smaller totals forward, so it
      is stable like `Array.prototype.sort`. */
  method SortByTotalDescending(a: array<UserWithTotal>)
    modifies a
    ensures Descending(a[..])
    ensures multiset(a[..]) == multiset(old(a[..]))
    ensures SameTies(a[..], old(a[..]))
  {
    ghost var orig := a[..];
    var i := 0;
    while i < a.Length
      invariant 0 <= i <= a.Length
      invariant Descending(a[..i])
      invariant multiset(a[..]) == multiset(orig) && SameTies(a[..], orig)
    {
      StartInserting(a[..], i);
      var j := i;
      while j > 0 && a[j - 1].totalAmount < a[j].totalAmount
        invariant 0 <= j <= i
        invariant Inserting(a[..], j, i)
        invariant multiset(a[..]) == multiset(orig) && SameTies(a[..], orig)
      {
        SwapStep(a[..], j, i, orig);
        ghost var before := a[..];
        a[j - 1], a[j] := a[j], a[j - 1];
        assert a[..] == Swap(before, j - 1, j);
        j := j - 1;
      }
      StopInserting(a[..], j, i);
      i := i + 1;
    }
    assert a[..i] == a[..];
  }

  class CustomerManager {
    var users: seq<UserWithTotal>
    var currentPage: int
    var failed: bool
    var loading: bool
    /** The paths requested, in order. */
    var requests: seq<string>

    constructor ()
      ensures users == [] && currentPage == 0 && !failed && loading && requests == []
    {
      users := [];
      currentPage := 0;
      failed := false;
      loading := true;
      requests := [];
    }

    /** `loadData` with the replies to the users and orders requests: both
        are sent, the users request for the current page. The result is the
        page's users, each once, each with the sum of that user's orders,
        biggest total first, users with equal totals in their fetched order;
        a failed request contributes no items. An order without a customer
        makes `loadData` reject before `setUsers`: the old users stay and
        the page keeps loading. */
    method LoadData(usersReply: Fetch<User>, ordersReply: Fetch<CustomerOrder>)
      modifies this
      ensures failed == usersReply.FetchFailed? && currentPage == old(currentPage)
      ensures requests == old(requests) + [UsersPath(old(currentPage)), OrdersPath]
      ensures AllHaveCustomer(Items(ordersReply)) ==>
        && multiset(users) == multiset(Attach(Items(usersReply), Items(ordersReply)))
        && Descending(users) && !loading
        && SameTies(users, Attach(Items(usersReply), Items(ordersReply)))
      ensures !AllHaveCustomer(Items(ordersReply)) ==> users == old(users) && loading
    {
      loading := true;
      requests := requests + [UsersPath(currentPage), OrdersPath];
      failed := usersReply.FetchFailed?;
      var userList := Items(usersReply);
      var orderList := Items(ordersReply);
      var totals := TotalsByUser(orderList);
      if totals.None? {
        return;
      }
      var totalMap := totals.value;
      var usersWithTotal := new UserWithTotal[|userList|](k requires 0 <= k < |userList| =>
        UserWithTotal(userList[k], TotalFor(totalMap, userList[k].id)));
      forall k | 0 <= k < |userList| ensures usersWithTotal[k] == Attach(userList, orderList)[k] {
        TotalForIsSum(orderList, totalMap, userList[k].id);
      }
      assert usersWithTotal[..] == Attach(userList, orderList);
      SortByTotalDescending(usersWithTotal);
      users := usersWithTotal[..];
      loading := false;
    }
  }

  /** Each user of the page with the sum of that user's orders. */
  function Attach(userList: seq<User>, orders: seq<CustomerOrder>): (r: seq<UserWithTotal>)
    ensures |r| == |userList|
    ensures forall k :: 0 <= k < |r| ==> r[k] == UserWithTotal(userList[k], SumFor(orders, userList[k].id))
  {
    seq(|userList|, k requires 0 <= k < |userList| => UserWithTotal(userList[k], SumFor(orders, userList[k].id)))
  }

  /** A reordering of the page shows every user of the page exactly as
      often as it was fetched, and each shown total is that user's sum. */
  lemma LoadedUsersAreThePage(users: seq<UserWithTotal>, userList: seq<User>, orders: seq<CustomerOrder>)
    requires multiset(users) == multiset(Attach(userList, orders))
    ensures |users| == |userList|
    ensures forall k :: 0 <= k < |users| ==> users[k].totalAmount == SumFor(orders, users[k].user.id)
    ensures forall k :: 0 <= k < |users| ==> users[k].user in userList
  {
    var att := Attach(userList, orders);
    assert |multiset(users)| == |multiset(att)|;
    forall k | 0 <= k < |users|
      ensures users[k].totalAmount == SumFor(orders, users[k].user.id) && users[k].user in userList
    {
      assert users[k] in multiset(att);
      var m :| 0 <= m < |att| && att[m] == users[k];
    }
  }
}
