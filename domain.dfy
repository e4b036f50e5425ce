/**
 * The vocabulary of the application (types.ts): roles, service categories,
 * job statuses, addresses, jobs, users and catalogue options.
 */
module Domain {
  import opened Wrappers

  datatype UserRole = Client | Provider | Admin

  datatype ServiceCategory = Snow | Lawn

  /** The five statuses of the typed vocabulary. 'OPEN' is not one of them. */
  datatype JobStatus = Pending | Accepted | InProgress | Completed | Cancelled

  datatype AddressType = Home | Office | Other

  datatype Address = Address(id: string, street: string, city: string, zip: string, kind: AddressType)

  /** A typed job: `clientId` is always present, `providerId` may be absent. */
  datatype Job = Job(
    id: string,
    clientId: string,
    providerId: Option<string>,
    category: ServiceCategory,
    serviceType: string,
    status: JobStatus,
    address: Address,
    price: real,
    dateScheduled: string,
    createdAt: string)

  /**
   * A signed-in user. The role is kept as text because the session mapping
   * copies whatever the profile or the sign-up metadata holds.
   */
  datatype User = User(id: string, name: string, email: string, role: string)

  /** `caption` is the option's `label` (a reserved word in Dafny). */
  datatype ServiceOption = ServiceOption(id: string, caption: string, basePrice: real, description: string)

  function RoleName(r: UserRole): string
  {
    match r
    case Client => "CLIENT"
    case Provider => "PROVIDER"
    case Admin => "ADMIN"
  }

  function CategoryName(c: ServiceCategory): string
  {
    match c
    case Snow => "SNOW"
    case Lawn => "LAWN"
  }

  function StatusName(s: JobStatus): string
  {
    match s
    case Pending => "PENDING"
    case Accepted => "ACCEPTED"
    case InProgress => "IN_PROGRESS"
    case Completed => "COMPLETED"
    case Cancelled => "CANCELLED"
  }

  /** Reads a status string of the typed vocabulary; any other spelling is not a JobStatus. */
  function ParseStatus(text: string): Option<JobStatus>
  {
    if text == "PENDING" then Some(Pending)
    else if text == "ACCEPTED" then Some(Accepted)
    else if text == "IN_PROGRESS" then Some(InProgress)
    else if text == "COMPLETED" then Some(Completed)
    else if text == "CANCELLED" then Some(Cancelled)
    else None
  }

  function ParseRole(text: string): Option<UserRole>
  {
    if text == "CLIENT" then Some(Client)
    else if text == "PROVIDER" then Some(Provider)
    else if text == "ADMIN" then Some(Admin)
    else None
  }

  /** Every status name reads back as that status. */
  lemma StatusRoundTrip(s: JobStatus)
    ensures ParseStatus(StatusName(s)) == Some(s)
  {
  }

  /** A string is a status exactly when it is the name of one; so the name is injective. */
  lemma ParseStatusExact(text: string)
    ensures ParseStatus(text).Some? <==> exists s: JobStatus :: StatusName(s) == text
    ensures ParseStatus(text).Some? ==> StatusName(ParseStatus(text).value) == text
  {
    if ParseStatus(text).Some? {
      assert StatusName(ParseStatus(text).value) == text;
    }
  }

  /** The spellings used by the jobs table ('OPEN') and by the jobs service ('pending', 'accepted') are outside the vocabulary. */
  lemma OtherSpellingsAreNotStatuses()
    ensures ParseStatus("OPEN") == None
    ensures ParseStatus("pending") == None
    ensures ParseStatus("accepted") == None
    ensures forall s: JobStatus :: StatusName(s) != "OPEN"
  {
  }

  lemma RoleRoundTrip(r: UserRole)
    ensures ParseRole(RoleName(r)) == Some(r)
  {
  }
}
