/**
 * The client's screen (pages/ClientDashboard.tsx): the three-step booking
 * wizard, the row it inserts, the client's job list, and the handler that
 * marks a job paid when the page is opened from a payment return.
 */
module ClientDashboard {
  import opened Wrappers
  import opened Domain
  import opened JobsTable
  import Catalogue

  datatype View = List | Booking

  const BlankAddress := Address("new", "", "", "", Home)

  /** The address column: `${street}, ${city}`. */
  function FullAddress(a: Address): (s: string)
    ensures |s| == |a.street| + 2 + |a.city| && s[|a.street|] == ','
  {
    a.street + ", " + a.city
  }

  /** The description column: `Category: ${category}. Date Scheduled: ${date}`. */
  function Description(c: ServiceCategory, date: string): (s: string)
    ensures |s| == 28 + |CategoryName(c)| + |date|
  {
    "Category: " + CategoryName(c) + ". Date Scheduled: " + date
  }

  /** The address column reads as the street, then ", ", then the city. */
  lemma FullAddressParts(a: Address)
    ensures FullAddress(a)[..|a.street|] == a.street
    ensures FullAddress(a)[|a.street|..|a.street| + 2] == ", "
    ensures FullAddress(a)[|a.street| + 2..] == a.city
  {
    var s := FullAddress(a);
    assert s == a.street + (", " + a.city);
  }

  /** The description column reads as "Category: ", the category, ". Date Scheduled: ", then the date. */
  lemma DescriptionParts(c: ServiceCategory, date: string)
    ensures var s, n := Description(c, date), CategoryName(c);
      && s[..10] == "Category: "
      && s[10..10 + |n|] == n
      && s[10 + |n|..28 + |n|] == ". Date Scheduled: "
      && s[28 + |n|..] == date
  {
    var s, n := Description(c, date), CategoryName(c);
    assert s == "Category: " + (n + (". Date Scheduled: " + date));
  }

  /** The first comma of the address column is the one after the street. */
  lemma CommaAfterStreet(a: Address)
    requires ',' !in a.street
    ensures FullAddress(a)[|a.street|] == ','
    ensures forall k :: 0 <= k < |a.street| ==> FullAddress(a)[k] != ','
  {
    assert forall k :: 0 <= k < |a.street| ==> FullAddress(a)[k] == a.street[k];
  }

  /** Street and city are recovered from the address column whenever the street has no comma. */
  lemma FullAddressRecoverable(a: Address, b: Address)
    requires ',' !in a.street && ',' !in b.street
    requires FullAddress(a) == FullAddress(b)
    ensures a.street == b.street && a.city == b.city
  {
    var s := FullAddress(a);
    CommaAfterStreet(a);
    CommaAfterStreet(b);
    assert |a.street| == |b.street|;
    assert a.street == s[..|a.street|] == b.street;
    assert a.city == s[|a.street| + 2..] == b.city;
  }

  /** Category and date are recovered from the description column. */
  lemma DescriptionRecoverable(c1: ServiceCategory, d1: string, c2: ServiceCategory, d2: string)
    requires Description(c1, d1) == Description(c2, d2)
    ensures c1 == c2 && d1 == d2
  {
    var s := Description(c1, d1);
    assert s[10] == CategoryName(c1)[0] && s[10] == CategoryName(c2)[0];
    assert d1 == s[|"Category: SNOW. Date Scheduled: "|..] == d2;
  }

  /** The row `handleCreate` inserts: an 'OPEN' job with no provider, owned by the user. */
  function BookingRow(userId: string, serviceType: string, price: real, a: Address, c: ServiceCategory, date: string): (r: Row)
    ensures r.Keys == {"client_id", "provider_id", "service_type", "status", "address", "price", "description"}
    ensures r["client_id"] == Str(userId) && r["provider_id"] == Null && r["status"] == Str("OPEN")
    ensures r["service_type"] == Str(serviceType) && r["price"] == Num(price)
    ensures r["address"] == Str(FullAddress(a)) && r["description"] == Str(Description(c, date))
  {
    map["client_id" := Str(userId), "provider_id" := Null, "service_type" := Str(serviceType),
        "status" := Str("OPEN"), "address" := Str(FullAddress(a)), "price" := Num(price),
        "description" := Str(Description(c, date))]
  }

  /** `URLSearchParams.get`: the value of the first pair with that key. */
  function Lookup(query: seq<(string, string)>, key: string): (r: Option<string>)
    ensures r.Some? <==> exists k :: 0 <= k < |query| && query[k].0 == key
    ensures r.Some? ==>
      exists k :: 0 <= k < |query| && query[k] == (key, r.value) && forall i :: 0 <= i < k ==> query[i].0 != key
  {
    if query == [] then None
    else if query[0].0 == key then Some(query[0].1)
    else
      var r := Lookup(query[1..], key);
      assert forall k :: 1 <= k < |query| ==> query[k] == query[1..][k - 1];
      r
  }

  /**
   * The payment-return check: the job to mark paid, when `payment_status` is
   * 'success' and `job_id` is present and not empty.
   */
  function PaidJob(query: seq<(string, string)>): (r: Option<string>)
    ensures r.Some? ==> r.value != "" && Lookup(query, "job_id") == r
    ensures r.Some? <==>
      Lookup(query, "payment_status") == Some("success") && Lookup(query, "job_id").Some? && Lookup(query, "job_id").value != ""
  {
    var id := Lookup(query, "job_id");
    if Lookup(query, "payment_status") == Some("success") && id.Some? && id.value != "" then id else None
  }

  function PaidPatch(): Row
  {
    map["payment_status" := Str("PAID")]
  }

  /** The client list's filter value: the user's id, or nothing to match without a user. */
  function OwnerFilter(user: Option<User>): Value
  {
    if user.Some? then Str(user.value.id) else Null
  }

  /** The client list holds exactly the table's rows owned by the user, newest first. */
  lemma ClientListExact(all: seq<Record>, user: User, x: Record)
    requires Increasing(all)
    ensures x in Reverse(Where(all, "client_id", Str(user.id))) <==> x in all && Column(x.fields, "client_id") == Str(user.id)
    ensures Decreasing(Reverse(Where(all, "client_id", Str(user.id))))
  {
    var w := Where(all, "client_id", Str(user.id));
    WhereMembers(all, "client_id", Str(user.id), x);
    WhereKeepsOrder(all, "client_id", Str(user.id));
    var r := Reverse(w);
    assert x in r <==> x in w by {
      if x in w {
        var k :| 0 <= k < |w| && w[k] == x;
        assert r[|w| - 1 - k] == x;
      }
    }
  }

  class Dashboard {
    var view: View
    var jobs: seq<Record>
    var isLoading: bool
    var step: nat
    var category: ServiceCategory
    var serviceType: string
    var price: real
    var address: Address
    var date: string

    /** The wizard never passes a step whose field is empty. */
    ghost predicate Valid()
      reads this
    {
      && 1 <= step <= 3
      && (step >= 2 ==> serviceType != "")
      && (step == 3 ==> address.street != "")
    }

    /** The screen as it first renders; `today` is the date part of the current time. */
    constructor (today: string)
      ensures Valid()
      ensures view == List && jobs == [] && !isLoading && step == 1 && category == Snow
      ensures serviceType == "" && price == 0.0 && address == BlankAddress && date == today
    {
      view := List;
      jobs := [];
      isLoading := false;
      step := 1;
      category := Snow;
      serviceType := "";
      price := 0.0;
      address := BlankAddress;
      date := today;
    }

    method SetView(v: View)
      modifies this`view
      ensures view == v
    {
      view := v;
    }

    /** Switching category keeps the package and price already chosen. */
    method SelectCategory(c: ServiceCategory)
      requires Valid()
      modifies this`category
      ensures Valid() && category == c
    {
      category := c;
    }

    /** Picking a package of the shown catalogue records its label and base price. */
    method SelectOption(o: ServiceOption)
      requires Valid() && step == 1 && o in Catalogue.OptionsFor(category)
      modifies this`serviceType, this`price
      ensures Valid() && serviceType == o.caption && price == o.basePrice && price > 0.0
    {
      serviceType := o.caption;
      price := o.basePrice;
    }

    /** "Next Step": enabled only once a package is chosen. */
    method ToAddressStep()
      requires Valid() && step == 1
      modifies this`step
      ensures Valid()
      ensures step == (if serviceType != "" then 2 else 1)
    {
      if serviceType != "" {
        step := 2;
      }
    }

    /** "Review & Pay": enabled only once a street is entered; the city may stay empty. */
    method ToReviewStep()
      requires Valid() && step == 2
      modifies this`step
      ensures Valid()
      ensures step == (if address.street != "" then 3 else 2)
    {
      if address.street != "" {
        step := 3;
      }
    }

    method SetStreet(s: string)
      requires Valid() && step == 2
      modifies this`address
      ensures Valid() && address == old(address).(street := s)
    {
      address := address.(street := s);
    }

    method SetCity(s: string)
      requires Valid() && step == 2
      modifies this`address
      ensures Valid() && address == old(address).(city := s)
    {
      address := address.(city := s);
    }

    method SetDate(d: string)
      modifies this`date
      ensures date == d
    {
      date := d;
    }

    /** `fetchMyJobs`: on success the list becomes the user's rows, newest first; on failure it is kept. */
    method FetchMyJobs(user: Option<User>, table: Table, fails: bool)
      requires table.Valid()
      modifies this`jobs
      ensures jobs == if fails then old(jobs) else Reverse(Where(table.Snapshot(), "client_id", OwnerFilter(user)))
    {
      if !fails {
        jobs := table.SelectNewestFirst("client_id", OwnerFilter(user));
      }
    }

    /** Back to the list at step 1, with no package and a blank address. */
    method ClearDraft()
      modifies this`view, this`step, this`serviceType, this`address
      ensures Valid()
      ensures view == List && step == 1 && serviceType == "" && address == BlankAddress
    {
      view := List;
      step := 1;
      serviceType := "";
      address := BlankAddress;
    }

    /** The successful branch of `handleCreate`: insert, clear the draft, refresh the list. */
    method PostBooking(u: User, table: Table, freshId: string, refreshFails: bool) returns (alert: string)
      requires table.Valid() && freshId !in table.rows
      modifies this`isLoading, this`view, this`step, this`serviceType, this`address, this`jobs, table
      ensures Valid() && table.Valid() && !isLoading
      ensures alert == "Job posted successfully!"
      ensures table.Snapshot() == old(table.Snapshot()) +
        [Record(freshId, |old(table.order)|, BookingRow(u.id, old(serviceType), old(price), old(address), old(category), old(date)))]
      ensures view == List && step == 1 && serviceType == "" && address == BlankAddress
      ensures jobs == (if refreshFails then old(jobs) else Reverse(Where(table.Snapshot(), "client_id", Str(u.id))))
    {
      var row := BookingRow(u.id, serviceType, price, address, category, date);
      table.Insert(row, freshId);
      isLoading := false;
      alert := "Job posted successfully!";
      ClearDraft();
      FetchMyJobs(Some(u), table, refreshFails);
    }

    /**
     * `handleCreate`: without a user only an alert; otherwise the row is
     * inserted, and on success the wizard returns to the list at step 1 with
     * package and address cleared (category, price and date kept) and the
     * list is refreshed; on an insert error nothing but the alert changes.
     */
    method HandleCreate(user: Option<User>, table: Table, freshId: string, insertError: Option<string>, refreshFails: bool)
      returns (alert: string)
      requires Valid() && table.Valid() && freshId !in table.rows
      requires view == Booking && step == 3 && !isLoading
      modifies this`isLoading, this`view, this`step, this`serviceType, this`address, this`jobs, table
      ensures Valid() && table.Valid() && !isLoading
      ensures user.None? ==> alert == "Please log in again." && table.Snapshot() == old(table.Snapshot())
      ensures user.None? || insertError.Some? ==>
        view == old(view) && step == old(step) && serviceType == old(serviceType) && address == old(address) && jobs == old(jobs)
      ensures user.Some? && insertError.Some? ==>
        alert == "Error creating booking: " + insertError.value && table.Snapshot() == old(table.Snapshot())
      ensures user.Some? && insertError.None? ==>
        && alert == "Job posted successfully!"
        && table.Snapshot() == old(table.Snapshot()) +
             [Record(freshId, |old(table.order)|, BookingRow(user.value.id, old(serviceType), old(price), old(address), old(category), old(date)))]
        && view == List && step == 1 && serviceType == "" && address == BlankAddress
        && jobs == (if refreshFails then old(jobs) else Reverse(Where(table.Snapshot(), "client_id", Str(user.value.id))))
      ensures category == old(category) && price == old(price) && date == old(date)
    {
      if user.None? {
        alert := "Please log in again.";
        return;
      }
      isLoading := true;
      if insertError.Some? {
        isLoading := false;
        alert := "Error creating booking: " + insertError.value;
        return;
      }
      alert := PostBooking(user.value, table, freshId, refreshFails);
    }

    /**
     * The payment-return handler: when the query says `payment_status=success`
     * with a job id, that job's row is marked 'PAID' (whatever its status), and
     * on success the list is refreshed.
     */
    method HandlePaymentReturn(query: seq<(string, string)>, user: Option<User>, table: Table, updateFails: bool, refreshFails: bool)
      returns (marked: Option<string>)
      requires table.Valid()
      modifies this`jobs, table
      ensures table.Valid() && table.order == old(table.order)
      ensures marked == (if updateFails then None else PaidJob(query))
      ensures table.rows == if marked.Some? then Patched(old(table.rows), "id", Str(marked.value), PaidPatch()) else old(table.rows)
      ensures marked.None? ==> jobs == old(jobs)
      ensures marked.Some? ==> jobs == if refreshFails then old(jobs) else Reverse(Where(table.Snapshot(), "client_id", OwnerFilter(user)))
    {
      marked := None;
      var paid := PaidJob(query);
      if paid.Some? && !updateFails {
        table.Update("id", Str(paid.value), PaidPatch());
        marked := paid;
        FetchMyJobs(user, table, refreshFails);
      }
    }
  }
}
