/**
 * The fixed service catalogue and the sample data (constants.ts).
 */
module Catalogue {
  import opened Wrappers
  import opened Domain

  /** Ids are pairwise distinct. */
  ghost predicate DistinctIds(opts: seq<ServiceOption>)
  {
    forall i, j :: 0 <= i < j < |opts| ==> opts[i].id != opts[j].id
  }

  /** Labels are pairwise distinct, so a label names one option. */
  ghost predicate DistinctCaptions(opts: seq<ServiceOption>)
  {
    forall i, j :: 0 <= i < j < |opts| ==> opts[i].caption != opts[j].caption
  }

  ghost predicate PositivePrices(opts: seq<ServiceOption>)
  {
    forall i :: 0 <= i < |opts| ==> opts[i].basePrice > 0.0
  }

  function Prices(opts: seq<ServiceOption>): seq<real>
  {
    if opts == [] then [] else [opts[0].basePrice] + Prices(opts[1..])
  }

  /** The snow-removal packages, in display order. */
  function SnowOptions(): (r: seq<ServiceOption>)
    ensures Prices(r) == [40.0, 60.0, 15.0]
    ensures PositivePrices(r) && DistinctIds(r) && DistinctCaptions(r)
  {
    [ ServiceOption("snow-driveway", "Driveway Only", 40.0, "Clearance of main driveway area."),
      ServiceOption("snow-full", "Driveway + Walkway", 60.0, "Includes front steps and walkway to door."),
      ServiceOption("snow-salt", "Salting Add-on", 15.0, "Application of eco-friendly de-icer.") ]
  }

  /** The lawn-care packages, in display order. */
  function LawnOptions(): (r: seq<ServiceOption>)
    ensures Prices(r) == [50.0, 70.0, 100.0]
    ensures PositivePrices(r) && DistinctIds(r) && DistinctCaptions(r)
  {
    [ ServiceOption("lawn-mow", "Standard Mow", 50.0, "Mowing and grass clipping removal."),
      ServiceOption("lawn-edge", "Mow & Edge", 70.0, "Standard mow plus precision edging."),
      ServiceOption("lawn-full", "Full Care", 100.0, "Mow, edge, and hedge trimming.") ]
  }

  /** The list the booking wizard shows for a category. */
  function OptionsFor(c: ServiceCategory): (r: seq<ServiceOption>)
    ensures |r| == 3 && PositivePrices(r) && DistinctCaptions(r)
    ensures r == if c == Snow then SnowOptions() else LawnOptions()
  {
    if c == Snow then SnowOptions() else LawnOptions()
  }

  /** Ids stay distinct across both catalogues together. */
  lemma IdsDistinctAcrossCatalogues()
    ensures DistinctIds(SnowOptions() + LawnOptions())
  {
    var all := SnowOptions() + LawnOptions();
    forall i, j | 0 <= i < j < |all| ensures all[i].id != all[j].id {
      assert all[i].id[0] != all[j].id[0] || all[i].id != all[j].id;
    }
  }

  /** Within one catalogue, equal labels mean the same option. */
  lemma CaptionIdentifiesOption(c: ServiceCategory, i: nat, j: nat)
    requires i < |OptionsFor(c)| && j < |OptionsFor(c)|
    requires OptionsFor(c)[i].caption == OptionsFor(c)[j].caption
    ensures i == j
  {
  }

  const MockClientId := "c1"

  /** The sample users; the provider is the only one with a rating. */
  function MockUsers(): (r: seq<User>)
    ensures |r| == 3
    ensures r[0].role == RoleName(Client) && r[1].role == RoleName(Provider) && r[2].role == RoleName(Admin)
  {
    [ User("c1", "Alice Homeowner", "alice@example.com", "CLIENT"),
      User("p1", "Bob Builder", "bob@example.com", "PROVIDER"),
      User("a1", "Admin User", "admin@platform.com", "ADMIN") ]
  }

  /**
   * The two sample jobs. Their timestamps come from the clock at load time,
   * so they are parameters here.
   */
  function MockJobs(scheduled1: string, created1: string, scheduled2: string, created2: string): (r: seq<Job>)
    ensures |r| == 2
    ensures forall k :: 0 <= k < |r| ==> r[k].clientId == MockClientId && r[k].providerId == None
    ensures r[0].status == Completed && r[1].status == Pending
  {
    var home := Address("addr1", "123 Maple Ave", "Toronto", "M5V 2T6", Home);
    [ Job("j1", "c1", None, Snow, "Driveway + Walkway", Completed, home, 60.0, scheduled1, created1),
      Job("j2", "c1", None, Lawn, "Standard Mow", Pending, home, 50.0, scheduled2, created2) ]
  }
}
