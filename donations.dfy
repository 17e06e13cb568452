/**
 * The donation rules of Save&Serve (src/lib/api/donations.ts) with the
 * backend removed: listings work on the collection as the backend returned
 * it (already in its own order), writes produce the attributes sent to
 * `updateDocument`.
 */
module Donations {
  import opened Wrappers
  import opened Types
  import opened Seqs

  // ----- createDonation -----

  /** The donor's form (`DonationFormData`), images already uploaded. */
  datatype DonationForm = DonationForm(
    title: string,
    description: string,
    foodType: seq<FoodType>,
    portions: int,
    weightKg: real,
    location: Location,
    pickupWindow: PickupWindow,
    specialInstructions: Option<string>)

  /**
   * The document `createDonation` stores: always `available`, with no claim or
   * completion yet and empty special instructions when none were given. `id`
   * is the fresh id the backend assigns, `imageIds` the uploaded images and
   * `now` the creation time.
   */
  function NewDonation(id: string, donorId: string, data: DonationForm, imageIds: seq<string>, now: int)
    : (d: Donation)
    ensures d.id == id && d.donorId == donorId && d.createdAt == now
    ensures d.status == Available
    ensures d.claimedBy.None? && d.claimedAt.None? && d.completedAt.None?
    ensures d.specialInstructions == data.specialInstructions.GetOr("")
    ensures d.quantity == Quantity(data.portions, data.weightKg)
    ensures d.title == data.title && d.description == data.description && d.foodType == data.foodType
    ensures d.images == imageIds && d.location == data.location && d.pickupWindow == data.pickupWindow
  {
    var instructions := if TruthyString(data.specialInstructions) then data.specialInstructions.value else "";
    Donation(id, donorId, data.title, data.description, data.foodType,
             Quantity(data.portions, data.weightKg), imageIds, data.location, data.pickupWindow,
             Available, instructions, now, None, None, None)
  }

  // ----- getDonations -----

  datatype DonationFilters = DonationFilters(
    foodTypes: Option<seq<FoodType>>,
    maxDistance: Option<real>,
    minPortions: Option<int>,
    maxPortions: Option<int>,
    startTime: Option<string>,
    endTime: Option<string>,
    status: Option<seq<DonationStatus>>)

  /** What `filters?.x` reads when no filters object is passed. */
  const NoFilters := DonationFilters(None, None, None, None, None, None, None)

  /** The statuses the listing query asks for: the given ones when the list is
      non-empty, otherwise only `available`. */
  function StatusQuery(f: DonationFilters): (statuses: seq<DonationStatus>)
    ensures |statuses| > 0
    ensures f.status.Some? && |f.status.value| > 0 ==> statuses == f.status.value
    ensures f.status.None? || |f.status.value| == 0 ==> statuses == [Available]
  {
    if f.status.Some? && |f.status.value| > 0 then f.status.value else [Available]
  }

  /** The client-side food-type filter runs only for a present, non-empty list. */
  predicate FoodTypeFilterActive(f: DonationFilters)
  {
    f.foodTypes.Some? && |f.foodTypes.value| > 0
  }

  /** The client-side portion filter runs only when a bound is truthy. */
  predicate PortionFilterActive(f: DonationFilters)
  {
    TruthyInt(f.minPortions) || TruthyInt(f.maxPortions)
  }

  /** A falsy bound (absent or 0) imposes nothing. */
  predicate PortionsWithin(portions: int, minPortions: Option<int>, maxPortions: Option<int>)
  {
    (!TruthyInt(minPortions) || portions >= minPortions.value) &&
    (!TruthyInt(maxPortions) || portions <= maxPortions.value)
  }

  function StatusFilter(statuses: seq<DonationStatus>): Donation -> bool
  {
    (d: Donation) => d.status in statuses
  }

  function FoodTypeFilter(wanted: seq<FoodType>): Donation -> bool
  {
    (d: Donation) => SomeIn(wanted, d.foodType)
  }

  function PortionFilter(minPortions: Option<int>, maxPortions: Option<int>): Donation -> bool
  {
    (d: Donation) => PortionsWithin(d.quantity.portions, minPortions, maxPortions)
  }

  /** Everything `getDonations` checks of one donation, as a single test. */
  predicate Listed(f: DonationFilters, d: Donation)
  {
    d.status in StatusQuery(f) &&
    (FoodTypeFilterActive(f) ==> exists t :: t in f.foodTypes.value && t in d.foodType) &&
    PortionsWithin(d.quantity.portions, f.minPortions, f.maxPortions)
  }

  function ListedFilter(f: DonationFilters): Donation -> bool
  {
    (d: Donation) => Listed(f, d)
  }

  /**
   * `getDonations`: the status query, then the food-type and portion filters
   * on the client. The result is the collection filtered by `Listed`, so it
   * keeps the backend's order and holds exactly the donations that pass every
   * active test.
   */
  method GetDonations(collection: seq<Donation>, filters: Option<DonationFilters>)
    returns (donations: seq<Donation>)
    ensures donations == Filter(collection, ListedFilter(filters.GetOr(NoFilters)))
    ensures forall d :: d in donations <==> d in collection && Listed(filters.GetOr(NoFilters), d)
  {
    var f := filters.GetOr(NoFilters);
    var statuses := StatusQuery(f);
    donations := Filter(collection, StatusFilter(statuses));
    ghost var passed: Donation -> bool := StatusFilter(statuses);
    if FoodTypeFilterActive(f) {
      var wanted := FoodTypeFilter(f.foodTypes.value);
      ghost var both := (d: Donation) => passed(d) && wanted(d);
      FilterFilter(collection, passed, wanted, both);
      donations := Filter(donations, wanted);
      passed := both;
    }
    if PortionFilterActive(f) {
      var bounded := PortionFilter(f.minPortions, f.maxPortions);
      ghost var both := (d: Donation) => passed(d) && bounded(d);
      FilterFilter(collection, passed, bounded, both);
      donations := Filter(donations, bounded);
      passed := both;
    }
    assert donations == Filter(collection, passed);
    FilterExtensional(collection, passed, ListedFilter(f));
  }

  /** Filters that agree on every element select the same elements. */
  lemma {:induction false} FilterExtensional(s: seq<Donation>, p: Donation -> bool, q: Donation -> bool)
    requires forall d :: d in s ==> p(d) == q(d)
    ensures Filter(s, p) == Filter(s, q)
  {
    if |s| > 0 {
      FilterExtensional(s[1..], p, q);
    }
  }

  /** A new donation shows in the default listing. */
  lemma NewDonationListed(id: string, donorId: string, data: DonationForm, imageIds: seq<string>, now: int)
    ensures Listed(NoFilters, NewDonation(id, donorId, data, imageIds, now))
  {
  }

  // ----- claimDonation -----

  /** The attributes `claimDonation` writes. */
  function ClaimPatch(organizationId: string, now: int): DonationPatch
  {
    EmptyDonationPatch.(status := Some(Claimed), claimedBy := Some(organizationId), claimedAt := Some(now))
  }

  /** The donation after a claim: claimed by `organizationId` at `now` whatever
      its previous status (no check is made), everything else unchanged. */
  function ClaimedDonation(d: Donation, organizationId: string, now: int): (c: Donation)
    ensures c.status == Claimed && c.claimedBy == Some(organizationId) && c.claimedAt == Some(now)
    ensures c.(status := d.status, claimedBy := d.claimedBy, claimedAt := d.claimedAt) == d
  {
    ApplyDonationPatch(d, ClaimPatch(organizationId, now))
  }

  /** With no status check, a second claim replaces the first claimant. */
  lemma SecondClaimOverwrites(d: Donation, first: string, second: string, t1: int, t2: int)
    ensures ClaimedDonation(ClaimedDonation(d, first, t1), second, t2) == ClaimedDonation(d, second, t2)
  {
  }

  // ----- updateDonationStatus -----

  /**
   * The attributes `updateDonationStatus` writes: the status, `completedAt`
   * set to `now` for `picked_up`, and then every attribute of `additionalData`,
   * which overrides both.
   */
  method StatusUpdateData(status: DonationStatus, now: int, additionalData: Option<DonationPatch>)
    returns (updateData: DonationPatch)
    ensures var extra := additionalData.GetOr(EmptyDonationPatch);
            updateData.status == (if extra.status.Some? then extra.status else Some(status)) &&
            updateData.completedAt == (if extra.completedAt.Some? then extra.completedAt
                                       else if status == PickedUp then Some(now) else None) &&
            updateData.(status := None, completedAt := None) == extra.(status := None, completedAt := None)
  {
    updateData := EmptyDonationPatch.(status := Some(status));
    if status == PickedUp {
      updateData := updateData.(completedAt := Some(now));
    }
    if additionalData.Some? {
      updateData := AssignDonationPatch(updateData, additionalData.value);
    }
  }

  // ----- getNearbyDonations -----

  const DefaultNearbyRadiusKm: real := 25.0

  /** Distance from the caller's position to the donation's pickup location,
      for a given distance function (the source uses the haversine formula). */
  function DistanceFrom(latitude: real, longitude: real, distance: (real, real, real, real) -> real)
    : Donation -> real
  {
    (d: Donation) => distance(latitude, longitude, d.location.lat, d.location.lng)
  }

  function NearbyFilter(latitude: real, longitude: real, radiusKm: real,
                        distance: (real, real, real, real) -> real): Donation -> bool
  {
    (d: Donation) => d.status == Available && DistanceFrom(latitude, longitude, distance)(d) <= radiusKm
  }

  /**
   * `getNearbyDonations`: the available donations within `radiusKm` (25 km
   * when omitted) of the caller, nearest first.
   */
  method GetNearbyDonations(collection: seq<Donation>, latitude: real, longitude: real, radiusKm: Option<real>,
                            distance: (real, real, real, real) -> real)
    returns (nearby: seq<Donation>)
    ensures SortedBy(nearby, DistanceFrom(latitude, longitude, distance))
    ensures multiset(nearby) ==
            multiset(Filter(collection, NearbyFilter(latitude, longitude, radiusKm.GetOr(DefaultNearbyRadiusKm), distance)))
    ensures forall d :: d in nearby <==>
              d in collection && d.status == Available &&
              distance(latitude, longitude, d.location.lat, d.location.lng) <= radiusKm.GetOr(DefaultNearbyRadiusKm)
  {
    var radius := radiusKm.GetOr(DefaultNearbyRadiusKm);
    var within := Filter(collection, NearbyFilter(latitude, longitude, radius, distance));
    var a := new Donation[|within|](i requires 0 <= i < |within| => within[i]);
    assert a[..] == within;
    SortByDistance(a, DistanceFrom(latitude, longitude, distance));
    nearby := a[..];
    forall d
      ensures d in nearby <==> d in within
    {
      assert d in nearby <==> d in multiset(nearby);
      assert d in within <==> d in multiset(within);
    }
  }

  /** In-place insertion sort of `a` by ascending `key`, standing for
      `Array.prototype.sort` with the comparator `key(x) - key(y)`. */
  method SortByDistance(a: array<Donation>, key: Donation -> real)
    modifies a
    ensures SortedBy(a[..], key)
    ensures multiset(a[..]) == multiset(old(a[..]))
  {
    if a.Length == 0 {
      return;
    }
    var i := 1;
    while i < a.Length
      invariant 1 <= i <= a.Length
      invariant SortedBy(a[..i], key)
      invariant multiset(a[..]) == multiset(old(a[..]))
    {
      InsertLast(a, i, key);
      i := i + 1;
    }
    assert a[..i] == a[..];
  }

  /** Moves `a[i]` left past every larger key, so that `a[..i + 1]` becomes sorted. */
  method InsertLast(a: array<Donation>, i: nat, key: Donation -> real)
    requires i < a.Length && SortedBy(a[..i], key)
    modifies a
    ensures SortedBy(a[..i + 1], key)
    ensures multiset(a[..]) == multiset(old(a[..]))
  {
    var j := i;
    while j > 0 && key(a[j - 1]) > key(a[j])
      invariant 0 <= j <= i
      invariant forall p, q :: 0 <= p < q <= i && p != j && q != j ==> key(a[p]) <= key(a[q])
      invariant forall q :: j < q <= i ==> key(a[j]) < key(a[q])
      invariant multiset(a[..]) == multiset(old(a[..]))
    {
      SwapWithPrevious(a, j);
      j := j - 1;
    }
  }

  method SwapWithPrevious(a: array<Donation>, j: nat)
    requires 0 < j < a.Length
    modifies a
    ensures a[..] == old(a[..])[j - 1 := old(a[j])][j := old(a[j - 1])]
    ensures multiset(a[..]) == multiset(old(a[..]))
  {
    a[j - 1], a[j] := a[j], a[j - 1];
  }

  // ----- getDonationStats -----

  datatype DonationStats = DonationStats(
    totalDonations: int,
    totalMeals: int,
    totalWeight: real,
    activeListings: int)

  function Portions(d: Donation): int { d.quantity.portions }
  function WeightKg(d: Donation): real { d.quantity.weightKg }

  function ByDonor(donorId: string): Donation -> bool
  {
    (d: Donation) => d.donorId == donorId
  }

  function IsAvailable(): Donation -> bool
  {
    (d: Donation) => d.status == Available
  }

  /** The donations the statistics cover: one donor's when `donorId` is truthy,
      otherwise all of them. */
  function CoveredDonations(collection: seq<Donation>, donorId: Option<string>): seq<Donation>
  {
    if TruthyString(donorId) then Filter(collection, ByDonor(donorId.value)) else collection
  }

  /**
   * `getDonationStats`: the number of covered donations, the sums of their
   * portions and weights, and how many of them are available.
   */
  method GetDonationStats(collection: seq<Donation>, donorId: Option<string>) returns (stats: DonationStats)
    ensures var all := CoveredDonations(collection, donorId);
            stats.totalDonations == |all| &&
            stats.totalMeals == Sum(all, Portions) &&
            stats.totalWeight == SumReal(all, WeightKg) &&
            stats.activeListings == |Filter(all, IsAvailable())|
  {
    var allDonations := CoveredDonations(collection, donorId);
    var activeDonations := Filter(allDonations, IsAvailable());
    var totalMeals := 0;
    var totalWeight := 0.0;
    var i := 0;
    while i < |allDonations|
      invariant 0 <= i <= |allDonations|
      invariant totalMeals == Sum(allDonations[..i], Portions)
      invariant totalWeight == SumReal(allDonations[..i], WeightKg)
    {
      assert allDonations[..i + 1][..i] == allDonations[..i];
      totalMeals := totalMeals + allDonations[i].quantity.portions;
      totalWeight := totalWeight + allDonations[i].quantity.weightKg;
      i := i + 1;
    }
    assert allDonations[..i] == allDonations;
    stats := DonationStats(|allDonations|, totalMeals, totalWeight, |activeDonations|);
  }

  /** A new donation adds its portions and weight to the totals and one active listing. */
  lemma StatsWithNewDonation(collection: seq<Donation>, id: string, donorId: string, data: DonationForm,
                             imageIds: seq<string>, now: int)
    ensures var d := NewDonation(id, donorId, data, imageIds, now);
            |Filter(collection + [d], IsAvailable())| == |Filter(collection, IsAvailable())| + 1 &&
            Sum(collection + [d], Portions) == Sum(collection, Portions) + data.portions &&
            SumReal(collection + [d], WeightKg) == SumReal(collection, WeightKg) + data.weightKg
  {
    var d := NewDonation(id, donorId, data, imageIds, now);
    FilterAppend(collection, [d], IsAvailable());
    assert (collection + [d])[..|collection|] == collection;
  }

  /** Claiming an available donation removes one active listing and leaves the
      portion and weight totals as they were. */
  lemma StatsAfterClaim(collection: seq<Donation>, k: nat, organizationId: string, now: int)
    requires k < |collection| && collection[k].status == Available
    ensures var claimed := collection[k := ClaimedDonation(collection[k], organizationId, now)];
            |Filter(claimed, IsAvailable())| == |Filter(collection, IsAvailable())| - 1 &&
            Sum(claimed, Portions) == Sum(collection, Portions) &&
            SumReal(claimed, WeightKg) == SumReal(collection, WeightKg)
  {
    var c := ClaimedDonation(collection[k], organizationId, now);
    CountUpdate(collection, k, c, IsAvailable());
    SumUpdate(collection, k, c, Portions);
    SumRealUpdate(collection, k, c, WeightKg);
  }
}
