/**
 * The in-memory record stores `UsersService` and `CustomersService`. The two
 * services are the same code over records of four fields, `id`, `name`, `email`
 * and a fourth field that is `role` for users and `status` for customers; one
 * class models both, and its two constructors install the two seed lists.
 */
module ListStore {
  import opened Wrappers
  import opened Tally

  /** A stored record; `category` is the user's `role` or the customer's `status`. */
  datatype Entry = Entry(id: int, name: string, email: string, category: string)

  /** `Partial<Omit<Entry, 'id'>>`: the fields an update gives; `None` is a field left out. */
  datatype Patch = Patch(name: Option<string>, email: Option<string>, category: Option<string>)

  /** The `total` and the per-category counts of `getUserStats` / `getCustomerStats`. */
  datatype Stats = Stats(total: nat, counts: seq<(string, nat)>)

  /** `{ ...e, ...p }`: the given fields override, the others and the id are kept. */
  function Merge(e: Entry, p: Patch): (r: Entry)
    ensures r.id == e.id
    ensures r.name == (if p.name.Some? then p.name.value else e.name)
    ensures r.email == (if p.email.Some? then p.email.value else e.email)
    ensures r.category == (if p.category.Some? then p.category.value else e.category)
  {
    Entry(e.id, p.name.GetOr(e.name), p.email.GetOr(e.email), p.category.GetOr(e.category))
  }

  /** `findIndex(x => x.id === id)`: the first position holding `id`, or -1. */
  function IndexOf(s: seq<Entry>, id: int): (r: int)
    ensures -1 <= r < |s|
    ensures r == -1 <==> forall i :: 0 <= i < |s| ==> s[i].id != id
    ensures r >= 0 ==> s[r].id == id && forall i :: 0 <= i < r ==> s[i].id != id
  {
    if s == [] then -1
    else if s[0].id == id then 0
    else
      var r := IndexOf(s[1..], id);
      if r == -1 then -1 else r + 1
  }

  /** `splice(i, 1)`: the list without position i. */
  function RemoveAt(s: seq<Entry>, i: int): (r: seq<Entry>)
    requires 0 <= i < |s|
    ensures |r| == |s| - 1
    ensures forall j :: 0 <= j < i ==> r[j] == s[j]
    ensures forall j :: i <= j < |r| ==> r[j] == s[j + 1]
  {
    s[..i] + s[i + 1..]
  }

  /** The categories of the records, in order. */
  function Categories(s: seq<Entry>): seq<string> {
    seq(|s|, i requires 0 <= i < |s| => s[i].category)
  }

  /** No two records share an id. */
  predicate DistinctIds(s: seq<Entry>) {
    forall i, j :: 0 <= i < j < |s| ==> s[i].id != s[j].id
  }

  /** Every id is below `bound`. */
  predicate IdsBelow(s: seq<Entry>, bound: int) {
    forall i :: 0 <= i < |s| ==> s[i].id < bound
  }

  /** The seed list of `UsersService`. */
  function SeedUsers(): seq<Entry> {
    [ Entry(1, "John Doe", "john.doe@example.com", "Admin"),
      Entry(2, "Jane Smith", "jane.smith@example.com", "Manager"),
      Entry(3, "Bob Johnson", "bob.johnson@example.com", "User"),
      Entry(4, "Alice Brown", "alice.brown@example.com", "User"),
      Entry(5, "Charlie Wilson", "charlie.wilson@example.com", "Manager") ]
  }

  /** The seed list of `CustomersService`. */
  function SeedCustomers(): seq<Entry> {
    [ Entry(1, "Acme Corp", "contact@acme.com", "Active"),
      Entry(2, "Tech Solutions Inc", "info@techsolutions.com", "Active"),
      Entry(3, "Global Industries", "hello@global.com", "Pending"),
      Entry(4, "Digital Services LLC", "support@digital.com", "Active"),
      Entry(5, "Innovation Labs", "contact@innovation.com", "Inactive") ]
  }

  /** Both seed lists have distinct ids, all below the first `nextId`, 6. */
  lemma SeedsValid()
    ensures DistinctIds(SeedUsers()) && IdsBelow(SeedUsers(), 6)
    ensures DistinctIds(SeedCustomers()) && IdsBelow(SeedCustomers(), 6)
  {
  }

  /** A record appended with an id above all others is found at the end. */
  lemma {:induction false} FindAppended(s: seq<Entry>, e: Entry)
    requires IdsBelow(s, e.id)
    ensures IndexOf(s + [e], e.id) == |s|
  {
    if s != [] {
      assert (s + [e])[1..] == s[1..] + [e];
      FindAppended(s[1..], e);
    }
  }

  /** After removing the only record with `id`, no record has it. */
  lemma RemovedIsGone(s: seq<Entry>, id: int)
    requires DistinctIds(s) && IndexOf(s, id) >= 0
    ensures IndexOf(RemoveAt(s, IndexOf(s, id)), id) == -1
  {
    var i := IndexOf(s, id);
    var r := RemoveAt(s, i);
    forall j | 0 <= j < |r|
      ensures r[j].id != id
    {
      if j >= i {
        assert r[j] == s[j + 1];
      }
    }
  }

  /** After an update, looking the id up again finds the merged record at the same place. */
  lemma UpdatedIsFound(s: seq<Entry>, id: int, p: Patch)
    requires IndexOf(s, id) >= 0
    ensures var i := IndexOf(s, id);
      IndexOf(s[i := Merge(s[i], p)], id) == i
  {
    var i := IndexOf(s, id);
    var r := s[i := Merge(s[i], p)];
    assert r[i].id == id;
    assert forall j :: 0 <= j < i ==> r[j] == s[j];
    var k := IndexOf(r, id);
    assert k <= i;
  }

  class Store {
    var entries: seq<Entry>
    var nextId: int

    /** Ids are distinct and below `nextId`, so `nextId` is always fresh. */
    ghost predicate Valid()
      reads this
    {
      DistinctIds(entries) && IdsBelow(entries, nextId)
    }

    /** `new UsersService()`: the five seeded users and `nextId = 6`. */
    constructor Users()
      ensures Valid() && entries == SeedUsers() && nextId == 6
    {
      entries := SeedUsers();
      nextId := 6;
      SeedsValid();
    }

    /** `new CustomersService()`: the five seeded customers and `nextId = 6`. */
    constructor Customers()
      ensures Valid() && entries == SeedCustomers() && nextId == 6
    {
      entries := SeedCustomers();
      nextId := 6;
      SeedsValid();
    }

    /** `getUserById` / `getCustomerById`: the first record with `id`, if any. */
    method GetById(id: int) returns (r: Option<Entry>)
      ensures r.None? <==> forall i :: 0 <= i < |entries| ==> entries[i].id != id
      ensures r.Some? ==>
        exists i :: (0 <= i < |entries| && entries[i] == r.value && r.value.id == id &&
                     forall j :: 0 <= j < i ==> entries[j].id != id)
    {
      var i := IndexOf(entries, id);
      if i == -1 {
        r := None;
      } else {
        r := Some(entries[i]);
      }
    }

    /** `addUser` / `addCustomer`: the record gets id `nextId`, which then goes up by one; it is appended. */
    method Add(name: string, email: string, category: string) returns (e: Entry)
      requires Valid()
      modifies this
      ensures Valid()
      ensures e == Entry(old(nextId), name, email, category)
      ensures entries == old(entries) + [e] && nextId == old(nextId) + 1
    {
      e := Entry(nextId, name, email, category);
      nextId := nextId + 1;
      entries := entries + [e];
    }

    /** `updateUser` / `updateCustomer`: merge the patch into the first record with `id`, or return null. */
    method Update(id: int, p: Patch) returns (r: Option<Entry>)
      requires Valid()
      modifies this
      ensures Valid() && nextId == old(nextId)
      ensures var i := IndexOf(old(entries), id);
        && (i == -1 ==> r.None? && entries == old(entries))
        && (i >= 0 ==> entries == old(entries)[i := Merge(old(entries)[i], p)] && r == Some(entries[i]))
    {
      var i := IndexOf(entries, id);
      if i != -1 {
        entries := entries[i := Merge(entries[i], p)];
        r := Some(entries[i]);
      } else {
        r := None;
      }
    }

    /** `deleteUser` / `deleteCustomer`: remove the first record with `id` and say whether there was one. */
    method Delete(id: int) returns (removed: bool)
      requires Valid()
      modifies this
      ensures Valid() && nextId == old(nextId)
      ensures var i := IndexOf(old(entries), id);
        && removed == (i >= 0)
        && entries == (if i >= 0 then RemoveAt(old(entries), i) else old(entries))
    {
      var i := IndexOf(entries, id);
      if i != -1 {
        entries := RemoveAt(entries, i);
        removed := true;
      } else {
        removed := false;
      }
    }

    /** `getUserStats` / `getCustomerStats`: the number of records and the count of each category. */
    function GetStats(): (st: Stats)
      reads this
      ensures st.total == |entries|
      ensures SumCounts(st.counts) == st.total
      ensures DistinctKeys(st.counts)
      ensures forall l :: l in KeysOf(st.counts) <==> l in Categories(entries)
      ensures forall i :: 0 <= i < |st.counts| ==> st.counts[i].1 == Occurrences(Categories(entries), st.counts[i].0)
    {
      TallyFacts(Categories(entries));
      Stats(|entries|, Tally.Tally(Categories(entries)))
    }
  }
}
