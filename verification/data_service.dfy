/**
 * The dashboard aggregations of `DataService`: joining e-mail addresses to their
 * user and customer, the headline counts, and the chart series (status counts,
 * and per-department / per-industry counts with cyclic colours).
 */
module DataService {
  import opened Wrappers
  import opened Tally

  datatype User = User(id: int, firstName: string, lastName: string, email: string,
                       department: string, role: string, status: string)

  datatype CustomerStatus = Active | Inactive | Pending

  datatype Customer = Customer(id: int, companyName: string, contactFirstName: string, contactLastName: string,
                               primaryEmail: string, industry: string, status: CustomerStatus, revenue: int)

  datatype EmailType = Primary | Secondary | Billing | Support

  /** An e-mail address; `userId` and `customerId` are optional. */
  datatype EmailAddress = EmailAddress(id: int, email: string, userId: Option<int>, customerId: Option<int>,
                                       kind: EmailType, isVerified: bool)

  /** `{ ...email }` with the two optional names added. */
  datatype EmailWithRelations = EmailWithRelations(address: EmailAddress, userName: Option<string>, customerName: Option<string>)

  datatype DashboardStats = DashboardStats(totalUsers: nat, activeUsers: nat, totalCustomers: nat,
                                           activeCustomers: nat, totalRevenue: int, totalEmails: nat)

  /** A chart point; `caption` is the source's `label`. */
  datatype ChartData = ChartData(caption: string, value: nat, color: string)

  /** JavaScript truthiness of an optional number: present and not 0. */
  predicate Truthy(n: Option<int>) {
    n.Some? && n.value != 0
  }

  /** `users.find(u => u.id === id)`. */
  function FindUser(users: seq<User>, id: int): (r: Option<User>)
    ensures r.None? <==> forall i :: 0 <= i < |users| ==> users[i].id != id
    ensures r.Some? ==> exists i :: 0 <= i < |users| && users[i] == r.value && r.value.id == id &&
                                    forall j :: 0 <= j < i ==> users[j].id != id
  {
    if users == [] then None
    else if users[0].id == id then Some(users[0])
    else
      var r := FindUser(users[1..], id);
      assert r.Some? ==> exists i :: 0 <= i < |users| - 1 && users[1..][i] == r.value;
      r
  }

  /** `customers.find(c => c.id === id)`. */
  function FindCustomer(customers: seq<Customer>, id: int): (r: Option<Customer>)
    ensures r.None? <==> forall i :: 0 <= i < |customers| ==> customers[i].id != id
    ensures r.Some? ==> exists i :: 0 <= i < |customers| && customers[i] == r.value && r.value.id == id &&
                                    forall j :: 0 <= j < i ==> customers[j].id != id
  {
    if customers == [] then None
    else if customers[0].id == id then Some(customers[0])
    else
      var r := FindCustomer(customers[1..], id);
      assert r.Some? ==> exists i :: 0 <= i < |customers| - 1 && customers[1..][i] == r.value;
      r
  }

  /** The body of the `map` in `getEmailAddressesWithRelations`, for one address. */
  function Relate(users: seq<User>, customers: seq<Customer>, e: EmailAddress): (r: EmailWithRelations)
    ensures r.address == e
    ensures r.userName.Some? <==> Truthy(e.userId) && exists u :: u in users && u.id == e.userId.value
    ensures r.userName.Some? ==> var u := FindUser(users, e.userId.value).value;
      r.userName.value == u.firstName + " " + u.lastName
    ensures r.customerName.Some? <==> Truthy(e.customerId) && exists c :: c in customers && c.id == e.customerId.value
    ensures r.customerName.Some? ==> r.customerName.value == FindCustomer(customers, e.customerId.value).value.companyName
  {
    var userName :=
      if Truthy(e.userId) then
        match FindUser(users, e.userId.value)
        case Some(u) => Some(u.firstName + " " + u.lastName)
        case None => None
      else None;
    var customerName :=
      if Truthy(e.customerId) then
        match FindCustomer(customers, e.customerId.value)
        case Some(c) => Some(c.companyName)
        case None => None
      else None;
    EmailWithRelations(e, userName, customerName)
  }

  /** `getEmailAddressesWithRelations`: one record per address, in order, each related as above. */
  function EmailAddressesWithRelations(users: seq<User>, customers: seq<Customer>, emails: seq<EmailAddress>): (r: seq<EmailWithRelations>)
    ensures |r| == |emails|
    ensures forall i :: 0 <= i < |emails| ==> r[i] == Relate(users, customers, emails[i]) && r[i].address == emails[i]
  {
    seq(|emails|, i requires 0 <= i < |emails| => Relate(users, customers, emails[i]))
  }

  /** `filter(u => u.status === st).length`. */
  function UsersWithStatus(users: seq<User>, st: string): (n: nat)
    ensures n <= |users|
  {
    if users == [] then 0 else UsersWithStatus(users[1..], st) + (if users[0].status == st then 1 else 0)
  }

  /** How many customers have status `st`. */
  function CountStatus(customers: seq<Customer>, st: CustomerStatus): (n: nat)
    ensures n <= |customers|
  {
    if customers == [] then 0 else CountStatus(customers[1..], st) + (if customers[0].status == st then 1 else 0)
  }

  /** `reduce((sum, c) => sum + c.revenue, 0)`. */
  function TotalRevenue(customers: seq<Customer>): int {
    if customers == [] then 0 else TotalRevenue(customers[..|customers| - 1]) + customers[|customers| - 1].revenue
  }

  /** With no negative revenue the total is at least every single revenue. */
  lemma {:induction false} TotalRevenueBound(customers: seq<Customer>)
    requires forall i :: 0 <= i < |customers| ==> customers[i].revenue >= 0
    ensures TotalRevenue(customers) >= 0
    ensures forall i :: 0 <= i < |customers| ==> customers[i].revenue <= TotalRevenue(customers)
  {
    if customers != [] {
      TotalRevenueBound(customers[..|customers| - 1]);
    }
  }

  /** `getDashboardStats`: totals are list lengths, active counts are filter counts, revenue is the sum. */
  function GetDashboardStats(users: seq<User>, customers: seq<Customer>, emails: seq<EmailAddress>): (st: DashboardStats)
    ensures st.totalUsers == |users| && st.totalCustomers == |customers| && st.totalEmails == |emails|
    ensures st.activeUsers <= st.totalUsers && st.activeCustomers <= st.totalCustomers
    ensures st.activeUsers == UsersWithStatus(users, "active") && st.activeCustomers == CountStatus(customers, Active)
    ensures st.totalRevenue == TotalRevenue(customers)
  {
    DashboardStats(|users|, UsersWithStatus(users, "active"), |customers|, CountStatus(customers, Active),
                   TotalRevenue(customers), |emails|)
  }

  /** `getUserStatusChartData`: the active and inactive user counts with their fixed colours. */
  function UserStatusChart(users: seq<User>): (chart: seq<ChartData>)
    ensures |chart| == 2
    ensures chart[0].caption == "Active Users" && chart[1].caption == "Inactive Users"
    ensures chart[0].color == "#4CAF50" && chart[1].color == "#F44336"
    ensures chart[0].value == UsersWithStatus(users, "active") && chart[1].value == UsersWithStatus(users, "inactive")
  {
    [ ChartData("Active Users", UsersWithStatus(users, "active"), "#4CAF50"),
      ChartData("Inactive Users", UsersWithStatus(users, "inactive"), "#F44336") ]
  }

  /** Users with two different statuses are never counted twice: the counts of two statuses add up to at most all users. */
  lemma {:induction false} StatusesDisjoint(users: seq<User>, a: string, b: string)
    requires a != b
    ensures UsersWithStatus(users, a) + UsersWithStatus(users, b) <= |users|
    ensures UsersWithStatus(users, a) + UsersWithStatus(users, b) == |users| <==>
      forall i :: 0 <= i < |users| ==> users[i].status in {a, b}
  {
    if users != [] {
      StatusesDisjoint(users[1..], a, b);
      if forall i :: 0 <= i < |users| - 1 ==> users[1..][i].status in {a, b} {
        assert forall i :: 1 <= i < |users| ==> users[i].status in {a, b} by {
          forall i | 1 <= i < |users| ensures users[i].status in {a, b} {
            assert users[1..][i - 1] == users[i];
          }
        }
      }
    }
  }

  /**
   * The user status chart's two values add up to at most the number of users, and
   * to exactly that number when every user is active or inactive.
   */
  lemma UserStatusChartSum(users: seq<User>)
    ensures var chart := UserStatusChart(users);
      && chart[0].value + chart[1].value <= |users|
      && (chart[0].value + chart[1].value == |users| <==>
            forall i :: 0 <= i < |users| ==> users[i].status in {"active", "inactive"})
  {
    StatusesDisjoint(users, "active", "inactive");
  }

  /** `getCustomerStatusChartData`: the active, inactive and pending counts with their fixed colours. */
  function CustomerStatusChart(customers: seq<Customer>): (chart: seq<ChartData>)
    ensures |chart| == 3
    ensures chart[0].caption == "Active" && chart[1].caption == "Inactive" && chart[2].caption == "Pending"
    ensures chart[0].color == "#4CAF50" && chart[1].color == "#F44336" && chart[2].color == "#FF9800"
    ensures chart[0].value == CountStatus(customers, Active) && chart[1].value == CountStatus(customers, Inactive)
      && chart[2].value == CountStatus(customers, Pending)
  {
    [ ChartData("Active", CountStatus(customers, Active), "#4CAF50"),
      ChartData("Inactive", CountStatus(customers, Inactive), "#F44336"),
      ChartData("Pending", CountStatus(customers, Pending), "#FF9800") ]
  }

  /** Every customer has one of the three statuses, so the three slices add up to all customers. */
  lemma {:induction false} StatusCountsSum(customers: seq<Customer>)
    ensures CountStatus(customers, Active) + CountStatus(customers, Inactive) + CountStatus(customers, Pending) == |customers|
  {
    if customers != [] {
      StatusCountsSum(customers[1..]);
    }
  }

  /** The status chart's values add up to the number of customers. */
  lemma CustomerStatusChartSum(customers: seq<Customer>)
    ensures var chart := CustomerStatusChart(customers);
      chart[0].value + chart[1].value + chart[2].value == |customers|
  {
    StatusCountsSum(customers);
  }

  /** A count table turned into chart entries, entry i coloured `colors[i % |colors|]`. */
  function Colored(t: seq<(string, nat)>, colors: seq<string>): (chart: seq<ChartData>)
    requires |colors| > 0
    ensures |chart| == |t|
  {
    seq(|t|, i requires 0 <= i < |t| => ChartData(t[i].0, t[i].1, colors[i % |colors|]))
  }

  /** The departments of the users, in order. */
  function Departments(users: seq<User>): seq<string> {
    seq(|users|, i requires 0 <= i < |users| => users[i].department)
  }

  /** The industries of the customers, in order. */
  function Industries(customers: seq<Customer>): seq<string> {
    seq(|customers|, i requires 0 <= i < |customers| => customers[i].industry)
  }

  const DepartmentColors: seq<string> := ["#2196F3", "#4CAF50", "#FF9800", "#9C27B0", "#F44336"]
  const IndustryColors: seq<string> := ["#3F51B5", "#009688", "#795548", "#607D8B", "#E91E63"]

  /**
   * The shared body of `getDepartmentChartData` and `getIndustryChartData`: count the
   * keys into a `Map` with `forEach`, then walk the map pushing one entry per key
   * with the next colour of the cycle.
   */
  method ChartByKey(keys: seq<string>, colors: seq<string>) returns (chart: seq<ChartData>)
    requires |colors| > 0
    ensures chart == Colored(Tally.Tally(keys), colors)
  {
    var counts: seq<(string, nat)> := [];
    for i := 0 to |keys|
      invariant counts == Tally.Tally(keys[..i])
    {
      assert keys[..i + 1][..i] == keys[..i];
      counts := Bump(counts, keys[i]);
    }
    assert keys[..|keys|] == keys;
    chart := [];
    var colorIndex := 0;
    for j := 0 to |counts|
      invariant colorIndex == j
      invariant chart == Colored(counts[..j], colors)
    {
      chart := chart + [ChartData(counts[j].0, counts[j].1, colors[colorIndex % |colors|])];
      colorIndex := colorIndex + 1;
    }
    assert counts[..|counts|] == counts;
  }

  /** The captions of a key chart are distinct and in first-appearance order of the keys. */
  lemma KeyChartOrder(keys: seq<string>, colors: seq<string>)
    requires |colors| > 0
    ensures var chart := Colored(Tally.Tally(keys), colors);
      && (forall i, j :: 0 <= i < j < |chart| ==> chart[i].caption != chart[j].caption)
      && (forall i, j :: 0 <= i < j < |chart| ==>
            chart[i].caption in keys && chart[j].caption in keys &&
            FirstIndex(keys, chart[i].caption) < FirstIndex(keys, chart[j].caption))
  {
    var t := Tally.Tally(keys);
    TallyFacts(keys);
    var chart := Colored(t, colors);
    assert forall i :: 0 <= i < |chart| ==> chart[i].caption == t[i].0;
  }

  /** A key chart has a caption for every key and for nothing else. */
  lemma KeyChartMembers(keys: seq<string>, colors: seq<string>)
    requires |colors| > 0
    ensures var chart := Colored(Tally.Tally(keys), colors);
      forall k :: k in keys <==> exists i :: 0 <= i < |chart| && chart[i].caption == k
  {
    var t := Tally.Tally(keys);
    TallyFacts(keys);
    var chart := Colored(t, colors);
    forall k
      ensures k in keys <==> exists i :: 0 <= i < |chart| && chart[i].caption == k
    {
      if k in keys {
        assert k in KeysOf(t);
        var i :| 0 <= i < |t| && KeysOf(t)[i] == k;
        assert chart[i].caption == k;
      }
      if exists i :: 0 <= i < |chart| && chart[i].caption == k {
        var i :| 0 <= i < |chart| && chart[i].caption == k;
        assert KeysOf(t)[i] == k;
      }
    }
  }

  /**
   * The values and colours of a key chart: each entry has the number of
   * occurrences of its key, the values add up to the number of keys, and entry i
   * has colour `colors[i mod |colors|]`.
   */
  lemma KeyChartValues(keys: seq<string>, colors: seq<string>)
    requires |colors| > 0
    ensures var chart := Colored(Tally.Tally(keys), colors);
      && (forall i :: 0 <= i < |chart| ==> chart[i].value == Occurrences(keys, chart[i].caption))
      && (forall i :: 0 <= i < |chart| ==> chart[i].color == colors[i % |colors|])
      && ChartTotal(chart) == |keys|
  {
    var t := Tally.Tally(keys);
    TallyFacts(keys);
    ColoredTotal(t, colors);
  }

  /** The sum of the values of a chart. */
  function ChartTotal(chart: seq<ChartData>): nat {
    if chart == [] then 0 else chart[0].value + ChartTotal(chart[1..])
  }

  /** Colouring keeps the total. */
  lemma ColoredTotal(t: seq<(string, nat)>, colors: seq<string>)
    requires |colors| > 0
    ensures ChartTotal(Colored(t, colors)) == SumCounts(t)
  {
    SameValuesSameTotal(Colored(t, colors), t);
  }

  /** A chart whose values are the counts of a table, one for one, has the table's total. */
  lemma {:induction false} SameValuesSameTotal(chart: seq<ChartData>, t: seq<(string, nat)>)
    requires |chart| == |t| && forall i :: 0 <= i < |t| ==> chart[i].value == t[i].1
    ensures ChartTotal(chart) == SumCounts(t)
  {
    if t != [] {
      SameValuesSameTotal(chart[1..], t[1..]);
    }
  }

  /** `getDepartmentChartData`. */
  method DepartmentChart(users: seq<User>) returns (chart: seq<ChartData>)
    ensures chart == Colored(Tally.Tally(Departments(users)), DepartmentColors)
  {
    chart := ChartByKey(Departments(users), DepartmentColors);
  }

  /** `getIndustryChartData`. */
  method IndustryChart(customers: seq<Customer>) returns (chart: seq<ChartData>)
    ensures chart == Colored(Tally.Tally(Industries(customers)), IndustryColors)
  {
    chart := ChartByKey(Industries(customers), IndustryColors);
  }
}
