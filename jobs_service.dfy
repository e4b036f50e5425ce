/**
 * The jobs service (services/jobs.ts): create a job, list the pending jobs,
 * accept a job. Each is one call on the jobs table.
 */
module JobsService {
  import opened Wrappers
  import opened JobsTable

  /** The only two service types `createJob` takes. */
  datatype ServiceKind = SnowRemoval | LawnMowing

  function KindName(k: ServiceKind): string
  {
    match k
    case SnowRemoval => "snow_removal"
    case LawnMowing => "lawn_mowing"
  }

  /**
   * The row `createJob` inserts. An absent description is left out of the row;
   * neither status nor provider is set.
   */
  function CreateJobRow(clientId: string, kind: ServiceKind, address: string, price: real, description: Option<string>): (r: Row)
    ensures "status" !in r && "provider_id" !in r
    ensures Column(r, "client_id") == Str(clientId) && Column(r, "address") == Str(address)
    ensures Column(r, "price") == Num(price)
    ensures Column(r, "service_type") == Str(KindName(kind))
    ensures Column(r, "service_type") in {Str("snow_removal"), Str("lawn_mowing")}
    ensures "description" in r <==> description.Some?
    ensures description.Some? ==> r["description"] == Str(description.value)
    ensures r.Keys <= {"client_id", "service_type", "address", "price", "description"}
  {
    var base := map["client_id" := Str(clientId), "service_type" := Str(KindName(kind)),
                    "address" := Str(address), "price" := Num(price)];
    if description.Some? then base["description" := Str(description.value)] else base
  }

  /** The columns `acceptJob` writes: lower-case 'accepted' and the provider's id. */
  function AcceptPatch(providerId: string): (r: Row)
    ensures r.Keys == {"status", "provider_id"}
    ensures r["status"] == Str("accepted") && r["provider_id"] == Str(providerId)
  {
    map["status" := Str("accepted"), "provider_id" := Str(providerId)]
  }

  const PendingStatus := Str("pending")

  method CreateJob(table: Table, clientId: string, kind: ServiceKind, address: string, price: real,
                   description: Option<string>, freshId: string)
    requires table.Valid() && freshId !in table.rows
    modifies table
    ensures table.Valid()
    ensures table.Snapshot() == old(table.Snapshot()) + [Record(freshId, |old(table.order)|, CreateJobRow(clientId, kind, address, price, description))]
  {
    table.Insert(CreateJobRow(clientId, kind, address, price, description), freshId);
  }

  /** `getPendingJobs`: the rows whose status is exactly the lower-case 'pending'. */
  method GetPendingJobs(table: Table) returns (r: seq<Record>)
    requires table.Valid()
    ensures r == Where(table.Snapshot(), "status", PendingStatus)
    ensures forall x :: x in r <==> x in table.Snapshot() && Column(x.fields, "status") == PendingStatus
  {
    r := table.Select("status", PendingStatus);
    forall x ensures x in r <==> x in table.Snapshot() && Column(x.fields, "status") == PendingStatus {
      WhereMembers(table.Snapshot(), "status", PendingStatus, x);
    }
  }

  /** `acceptJob`: whatever the row held before, it now says 'accepted' and names this provider. */
  method AcceptJob(table: Table, jobId: string, providerId: string)
    requires table.Valid()
    modifies table
    ensures table.Valid() && table.order == old(table.order)
    ensures table.rows == Patched(old(table.rows), "id", Str(jobId), AcceptPatch(providerId))
  {
    table.Update("id", Str(jobId), AcceptPatch(providerId));
  }

  /**
   * Accepting touches only the row with that id, and in it only status and
   * provider; every other row and every other column is as before.
   */
  lemma AcceptTouchesOneRow(rows: map<string, Row>, jobId: string, providerId: string)
    ensures var after := Patched(rows, "id", Str(jobId), AcceptPatch(providerId));
      && after.Keys == rows.Keys
      && (forall id :: id in rows && id != jobId ==> after[id] == rows[id])
      && (jobId in rows ==>
            && Column(after[jobId], "status") == Str("accepted")
            && Column(after[jobId], "provider_id") == Str(providerId)
            && forall c :: c != "status" && c != "provider_id" ==> Column(after[jobId], c) == Column(rows[jobId], c))
  {
    var after := Patched(rows, "id", Str(jobId), AcceptPatch(providerId));
    forall id | id in rows && id != jobId ensures after[id] == rows[id] {
      assert !Matches(id, rows[id], "id", Str(jobId));
    }
    if jobId in rows {
      assert Matches(jobId, rows[jobId], "id", Str(jobId));
    }
  }

  /** A second accept of the same job overwrites the first provider: the last accept wins. */
  lemma SecondAcceptWins(rows: map<string, Row>, jobId: string, first: string, second: string)
    requires jobId in rows
    ensures var after := Patched(Patched(rows, "id", Str(jobId), AcceptPatch(first)), "id", Str(jobId), AcceptPatch(second));
      Column(after[jobId], "provider_id") == Str(second) && Column(after[jobId], "status") == Str("accepted")
  {
    AcceptTouchesOneRow(rows, jobId, first);
    AcceptTouchesOneRow(Patched(rows, "id", Str(jobId), AcceptPatch(first)), jobId, second);
  }

  /** A job whose status is an upper-case or 'OPEN' spelling never appears among the pending jobs. */
  lemma PendingIsLowerCaseOnly(rec: Record)
    requires Column(rec.fields, "status") in {Str("OPEN"), Str("PENDING")}
    ensures !RecordMatches(rec, "status", PendingStatus)
  {
  }
}
