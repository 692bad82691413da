/** The customer store (`CustomerManager` in customer.js): an in-memory list
    of customers keyed in practice by phone number. Storage is the list
    itself; ids and time stamps are supplied by the caller. */
module Customers {
  import opened Text
  import opened Lists
  import opened Sorting

  /** The five customer inputs, already trimmed (`getCustomerDataFromForm`). */
  datatype CustomerData = CustomerData(name: string, company: string, phone: string, email: string,
                                       address: string)

  /** A stored customer. Imported records keep whatever time stamps they carried. */
  datatype Customer = Customer(id: string, data: CustomerData, createdAt: Option<int>,
                               updatedAt: Option<int>, importedAt: Option<int>)

  datatype CustomerStats = CustomerStats(total: nat, withEmail: nat, withCompany: nat, recentlyAdded: nat)

  function PhoneOf(c: Customer): string {
    c.data.phone
  }

  /** No two customers share a phone number. */
  predicate PhonesUnique(cs: seq<Customer>) {
    forall i, j :: 0 <= i < j < |cs| ==> PhoneOf(cs[i]) != PhoneOf(cs[j])
  }

  /** `findIndex(c => c.phone === phone)`. */
  function PhoneIndex(cs: seq<Customer>, phone: string): (k: int)
    ensures -1 <= k < |cs|
    ensures k >= 0 ==> PhoneOf(cs[k]) == phone && forall j :: 0 <= j < k ==> PhoneOf(cs[j]) != phone
    ensures k == -1 <==> forall j :: 0 <= j < |cs| ==> PhoneOf(cs[j]) != phone
  {
    FirstIndex(cs, (c: Customer) => PhoneOf(c) == phone)
  }

  /** `findIndex(c => c.id === id)`. */
  function IdIndex(cs: seq<Customer>, id: string): (k: int)
    ensures -1 <= k < |cs|
    ensures k >= 0 ==> cs[k].id == id && forall j :: 0 <= j < k ==> cs[j].id != id
    ensures k == -1 <==> forall j :: 0 <= j < |cs| ==> cs[j].id != id
  {
    FirstIndex(cs, (c: Customer) => c.id == id)
  }

  /** `getCustomer(id)`: the first customer with that id. */
  function CustomerById(cs: seq<Customer>, id: string): (r: Option<Customer>)
    ensures r.None? <==> forall j :: 0 <= j < |cs| ==> cs[j].id != id
    ensures r.Some? ==> r.value == cs[IdIndex(cs, id)]
  {
    Find(cs, (c: Customer) => c.id == id)
  }

  /** `getCustomerByPhone(phone)`: the first customer with that phone. */
  function CustomerByPhone(cs: seq<Customer>, phone: string): (r: Option<Customer>)
    ensures r.None? <==> forall j :: 0 <= j < |cs| ==> PhoneOf(cs[j]) != phone
    ensures r.Some? ==> r.value == cs[PhoneIndex(cs, phone)]
  {
    Find(cs, (c: Customer) => PhoneOf(c) == phone)
  }

  /** The list after `saveCustomer` accepts `data`: the entry with the same
      phone takes the new fields (keeping its id and creation time), or a new
      entry is appended. */
  function Upsert(cs: seq<Customer>, data: CustomerData, newId: string, now: int): seq<Customer> {
    var k := PhoneIndex(cs, data.phone);
    if k >= 0 then cs[k := cs[k].(data := data, updatedAt := Some(now))]
    else cs + [Customer(newId, data, Some(now), Some(now), None)]
  }

  /** A known phone: only its entry changes, to the new fields, with its id
      and creation time kept, and the length is unchanged. */
  lemma {:induction false} UpsertReplaces(cs: seq<Customer>, data: CustomerData, newId: string, now: int)
    requires PhoneIndex(cs, data.phone) >= 0
    ensures var r, k := Upsert(cs, data, newId, now), PhoneIndex(cs, data.phone);
            && |r| == |cs|
            && r[k].data == data && r[k].id == cs[k].id && r[k].createdAt == cs[k].createdAt
            && r[k].updatedAt == Some(now)
            && forall j :: 0 <= j < |cs| && j != k ==> r[j] == cs[j]
  {
  }

  /** A new phone: one entry with the fresh id is appended at the end. */
  lemma {:induction false} UpsertAppends(cs: seq<Customer>, data: CustomerData, newId: string, now: int)
    requires PhoneIndex(cs, data.phone) == -1
    ensures var r := Upsert(cs, data, newId, now);
            && |r| == |cs| + 1 && r[..|cs|] == cs
            && r[|cs|] == Customer(newId, data, Some(now), Some(now), None)
  {
  }

  /** Saving never creates a second entry for a phone. */
  lemma {:induction false} UpsertKeepsPhonesUnique(cs: seq<Customer>, data: CustomerData, newId: string, now: int)
    requires PhonesUnique(cs)
    ensures PhonesUnique(Upsert(cs, data, newId, now))
  {
  }

  /** Right after a save, looking the phone up finds the saved fields. */
  lemma {:induction false} UpsertThenLookup(cs: seq<Customer>, data: CustomerData, newId: string, now: int)
    ensures var r := CustomerByPhone(Upsert(cs, data, newId, now), data.phone);
            r.Some? && r.value.data == data
  {
    var r := Upsert(cs, data, newId, now);
    var k := PhoneIndex(cs, data.phone);
    if k >= 0 {
      assert forall j :: 0 <= j < k ==> PhoneOf(r[j]) != data.phone by {
        assert forall j :: 0 <= j < k ==> r[j] == cs[j];
      }
      assert PhoneOf(r[k]) == data.phone;
    } else {
      assert PhoneOf(r[|cs|]) == data.phone;
    }
  }

  /** The list without the element at `k` (`splice(k, 1)`). */
  function RemoveAt(cs: seq<Customer>, k: nat): (r: seq<Customer>)
    requires k < |cs|
    ensures |r| == |cs| - 1
    ensures forall j :: 0 <= j < k ==> r[j] == cs[j]
    ensures forall j :: k <= j < |r| ==> r[j] == cs[j + 1]
  {
    cs[..k] + cs[k + 1..]
  }

  /** Removing an entry keeps the phones unique. */
  lemma {:induction false} RemoveKeepsPhonesUnique(cs: seq<Customer>, k: nat)
    requires k < |cs| && PhonesUnique(cs)
    ensures PhonesUnique(RemoveAt(cs, k))
  {
    var r := RemoveAt(cs, k);
    forall i, j | 0 <= i < j < |r| ensures PhoneOf(r[i]) != PhoneOf(r[j]) {
      var i', j' := if i < k then i else i + 1, if j < k then j else j + 1;
      assert r[i] == cs[i'] && r[j] == cs[j'];
    }
  }

  /** What an imported record becomes: a fresh id and the import time. */
  function Imported(c: Customer, id: string, now: int): Customer {
    c.(id := id, importedAt := Some(now))
  }

  /** The list after the import loop has seen `batch`: each record whose
      phone is not yet present (earlier records of the batch included) is
      appended with the id `newId(i)` for its position `i`. */
  function Merge(cs: seq<Customer>, batch: seq<Customer>, newId: nat -> string, now: int): seq<Customer> {
    if batch == [] then cs
    else
      var m := Merge(cs, batch[..|batch| - 1], newId, now);
      var c := batch[|batch| - 1];
      if PhoneIndex(m, PhoneOf(c)) == -1 then m + [Imported(c, newId(|batch| - 1), now)] else m
  }

  /** The merge only appends: the existing customers stay first, unchanged. */
  lemma {:induction false} MergeExtends(cs: seq<Customer>, batch: seq<Customer>, newId: nat -> string, now: int)
    ensures var m := Merge(cs, batch, newId, now);
            |cs| <= |m| <= |cs| + |batch| && m[..|cs|] == cs
  {
    if batch != [] {
      MergeExtends(cs, batch[..|batch| - 1], newId, now);
      var m := Merge(cs, batch[..|batch| - 1], newId, now);
      assert (m + [Imported(batch[|batch| - 1], newId(|batch| - 1), now)])[..|cs|] == m[..|cs|];
    }
  }

  /** The merge keeps phones unique, also against duplicates within the batch. */
  lemma {:induction false} MergeKeepsPhonesUnique(cs: seq<Customer>, batch: seq<Customer>, newId: nat -> string,
                                                  now: int)
    requires PhonesUnique(cs)
    ensures PhonesUnique(Merge(cs, batch, newId, now))
  {
    if batch != [] {
      MergeKeepsPhonesUnique(cs, batch[..|batch| - 1], newId, now);
    }
  }

  /** After the merge every phone of the batch is on file. */
  lemma {:induction false} MergeCoversBatch(cs: seq<Customer>, batch: seq<Customer>, newId: nat -> string, now: int)
    ensures forall i :: 0 <= i < |batch| ==> PhoneIndex(Merge(cs, batch, newId, now), PhoneOf(batch[i])) >= 0
  {
    if batch != [] {
      var init, c := batch[..|batch| - 1], batch[|batch| - 1];
      var m := Merge(cs, init, newId, now);
      MergeCoversBatch(cs, init, newId, now);
      var r := Merge(cs, batch, newId, now);
      assert m <= r;
      forall i | 0 <= i < |batch|
        ensures PhoneIndex(r, PhoneOf(batch[i])) >= 0
      {
        if i < |init| {
          assert batch[i] == init[i];
          var k := PhoneIndex(m, PhoneOf(init[i]));
          assert r[k] == m[k];
        } else if PhoneIndex(m, PhoneOf(c)) == -1 {
          assert PhoneOf(r[|m|]) == PhoneOf(c);
        }
      }
    }
  }

  predicate HasEmail(c: Customer) {
    c.data.email != ""
  }

  predicate HasCompany(c: Customer) {
    c.data.company != ""
  }

  /** `getCustomerStats`; `cutoff` stands for the time thirty days ago. A
      record without a creation time never counts as recent. */
  function Stats(cs: seq<Customer>, cutoff: int): (s: CustomerStats)
    ensures s.total == |cs|
    ensures s.withEmail <= s.total && s.withCompany <= s.total && s.recentlyAdded <= s.total
  {
    CustomerStats(|cs|, |Filter(cs, HasEmail)|, |Filter(cs, HasCompany)|,
                  |Filter(cs, (c: Customer) => c.createdAt.Some? && c.createdAt.value > cutoff)|)
  }

  /** `a.localeCompare(b) <= 0`, taken as code-point lexicographic order. */
  predicate NameLe(a: string, b: string)
    decreases |a|
  {
    a == [] || (b != [] && (a[0] < b[0] || (a[0] == b[0] && NameLe(a[1..], b[1..]))))
  }

  lemma {:induction false} NameLeTotal(a: string, b: string)
    ensures NameLe(a, b) || NameLe(b, a)
    decreases |a|
  {
    if a != [] && b != [] && a[0] == b[0] {
      NameLeTotal(a[1..], b[1..]);
    }
  }

  lemma {:induction false} NameLeTransitive(a: string, b: string, c: string)
    requires NameLe(a, b) && NameLe(b, c)
    ensures NameLe(a, c)
    decreases |a|
  {
    if a != [] && b != [] && c != [] && a[0] == b[0] && b[0] == c[0] {
      NameLeTransitive(a[1..], b[1..], c[1..]);
    }
  }

  predicate ByName(x: Customer, y: Customer) {
    NameLe(x.data.name, y.data.name)
  }

  lemma ByNameIsPreorder()
    ensures TotalPreorder(ByName)
  {
    forall x: Customer, y: Customer ensures ByName(x, y) || ByName(y, x) {
      NameLeTotal(x.data.name, y.data.name);
    }
    forall x: Customer, y: Customer, z: Customer | ByName(x, y) && ByName(y, z) ensures ByName(x, z) {
      NameLeTransitive(x.data.name, y.data.name, z.data.name);
    }
  }

  /** The order of the dropdown: a name-sorted copy of the list. */
  function DropdownOrder(cs: seq<Customer>): seq<Customer> {
    SortBy(cs, ByName)
  }

  /** The dropdown lists exactly the customers, sorted by name. */
  lemma {:induction false} DropdownSortedPermutation(cs: seq<Customer>)
    ensures SortedBy(DropdownOrder(cs), ByName)
    ensures multiset(DropdownOrder(cs)) == multiset(cs)
  {
    ByNameIsPreorder();
    SortBySorted(cs, ByName);
    SortByPermutes(cs, ByName);
  }

  class CustomerManager {
    var customers: seq<Customer>

    /** The store over the customers loaded from storage. */
    constructor(stored: seq<Customer>)
      ensures customers == stored
    {
      customers := stored;
    }

    /** `saveCustomer`: refuse an empty name or phone, else update the entry
        with that phone or append a new one. */
    method SaveCustomer(data: CustomerData, newId: string, now: int) returns (saved: bool)
      modifies this
      ensures saved <==> data.name != "" && data.phone != ""
      ensures customers == if saved then Upsert(old(customers), data, newId, now) else old(customers)
      ensures PhonesUnique(old(customers)) ==> PhonesUnique(customers)
    {
      if data.name == "" || data.phone == "" {
        return false;
      }
      var existingIndex := PhoneIndex(customers, data.phone);
      if existingIndex != -1 {
        customers := customers[existingIndex := customers[existingIndex].(data := data, updatedAt := Some(now))];
      } else {
        customers := customers + [Customer(newId, data, Some(now), Some(now), None)];
      }
      if PhonesUnique(old(customers)) {
        UpsertKeepsPhonesUnique(old(customers), data, newId, now);
      }
      return true;
    }

    /** `getCustomer`. */
    function GetCustomer(id: string): Option<Customer>
      reads this
    {
      CustomerById(customers, id)
    }

    /** `getCustomerByPhone`. */
    function GetCustomerByPhone(phone: string): Option<Customer>
      reads this
    {
      CustomerByPhone(customers, phone)
    }

    /** `deleteCustomer`: remove the first entry with the id, if there is one. */
    method DeleteCustomer(id: string) returns (deleted: bool)
      modifies this
      ensures deleted <==> IdIndex(old(customers), id) >= 0
      ensures customers == if deleted then RemoveAt(old(customers), IdIndex(old(customers), id)) else old(customers)
      ensures PhonesUnique(old(customers)) ==> PhonesUnique(customers)
    {
      var index := IdIndex(customers, id);
      if index != -1 {
        customers := customers[..index] + customers[index + 1..];
        if PhonesUnique(old(customers)) {
          RemoveKeepsPhonesUnique(old(customers), index);
        }
        return true;
      }
      return false;
    }

    /** The merge loop of `importCustomers`; `newId(i)` is the id generated
        for the record at position `i` of the batch. */
    method ImportCustomers(batch: seq<Customer>, newId: nat -> string, now: int)
      modifies this
      ensures customers == Merge(old(customers), batch, newId, now)
      ensures PhonesUnique(old(customers)) ==> PhonesUnique(customers)
    {
      var i := 0;
      while i < |batch|
        invariant 0 <= i <= |batch|
        invariant customers == Merge(old(customers), batch[..i], newId, now)
      {
        assert batch[..i + 1][..i] == batch[..i];
        var customer := batch[i];
        if CustomerByPhone(customers, PhoneOf(customer)).None? {
          customers := customers + [Imported(customer, newId(i), now)];
        }
        i := i + 1;
      }
      assert batch[..|batch|] == batch;
      if PhonesUnique(old(customers)) {
        MergeKeepsPhonesUnique(old(customers), batch, newId, now);
      }
    }

    /** `getCustomerStats`. */
    function GetCustomerStats(cutoff: int): CustomerStats
      reads this
    {
      Stats(customers, cutoff)
    }

    /** The order `populateCustomerDropdown` lists the customers in; the
        stored list itself is left as it is. */
    method SortedForDropdown() returns (listing: seq<Customer>)
      ensures listing == DropdownOrder(customers)
      ensures multiset(listing) == multiset(customers) && SortedBy(listing, ByName)
    {
      var copy := customers;
      listing := SortBy(copy, ByName);
      DropdownSortedPermutation(customers);
    }
  }
}
