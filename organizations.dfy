/**
 * The organization rules of Save&Serve (src/lib/api/organizations.ts) with
 * the backend removed: each operation works on the records the backend
 * returned, already decoded.
 */
module Organizations {
  import opened Wrappers
  import opened Types
  import opened Seqs

  // ----- canHandleDonation -----

  /** The food types an organization accepts; a missing list accepts nothing. */
  function AcceptedFoodTypes(org: Organization): seq<FoodType>
  {
    org.preferences.foodTypes.GetOr([])
  }

  /**
   * Whether the organization can take a donation of `portions` portions of the
   * given food types. The checks run in a fixed order: verification first,
   * then capacity, then the food-type overlap.
   */
  function CanHandleDonation(org: Organization, portions: int, foodTypes: seq<FoodType>): (r: bool)
    ensures org.verificationStatus != Verified ==> !r
    ensures org.verificationStatus == Verified && portions > org.capacity ==> !r
    ensures org.verificationStatus == Verified && portions <= org.capacity ==>
              (r <==> exists t :: t in foodTypes && t in AcceptedFoodTypes(org))
  {
    if org.verificationStatus != Verified then false
    else if portions > org.capacity then false
    else SomeIn(foodTypes, AcceptedFoodTypes(org))
  }

  /** A donation without food types, or an organization without a food-type
      list, never matches. */
  lemma NoFoodTypesNoMatch(org: Organization, portions: int, foodTypes: seq<FoodType>)
    requires foodTypes == [] || org.preferences.foodTypes.None?
    ensures !CanHandleDonation(org, portions, foodTypes)
  {
  }

  /** Fewer portions, or more offered food types, never turn an acceptance into a rejection. */
  lemma CanHandleMonotone(org: Organization, portions: int, foodTypes: seq<FoodType>,
                          fewer: int, more: seq<FoodType>)
    requires CanHandleDonation(org, portions, foodTypes)
    requires fewer <= portions
    requires forall t :: t in foodTypes ==> t in more
    ensures CanHandleDonation(org, fewer, more)
  {
    var t :| t in foodTypes && t in AcceptedFoodTypes(org);
    assert t in more;
  }

  // ----- getVerifiedOrganizationsInArea -----

  const DefaultAreaRadiusKm: real := 50.0

  predicate CoversRadius(org: Organization, radiusKm: real)
  {
    org.serviceArea as real >= radiusKm
  }

  /** The backend's `verificationStatus == 'verified'` query followed by the
      client-side service-area test, as one filter. */
  function InAreaFilter(radiusKm: real): Organization -> bool
  {
    (o: Organization) => o.verificationStatus == Verified && CoversRadius(o, radiusKm)
  }

  /**
   * The verified organizations among `organizations` (the backend's equality
   * query) whose own service area is at least `radiusKm` (the client-side
   * filter). `latitude` and `longitude` are accepted and not used, exactly as
   * in the source; the radius defaults to 50 km when the argument is omitted.
   */
  function VerifiedOrganizationsInArea(organizations: seq<Organization>, latitude: real, longitude: real,
                                       radiusKm: Option<real>): (r: seq<Organization>)
    ensures |r| <= |organizations|
    ensures forall o :: o in r <==>
              o in organizations && o.verificationStatus == Verified && CoversRadius(o, radiusKm.GetOr(DefaultAreaRadiusKm))
  {
    Filter(organizations, InAreaFilter(radiusKm.GetOr(DefaultAreaRadiusKm)))
  }

  /** The result keeps the input order: the k-th result sits at the k-th of a
      strictly increasing list of input positions. */
  lemma VerifiedOrganizationsInAreaOrder(organizations: seq<Organization>, latitude: real, longitude: real,
                                         radiusKm: Option<real>) returns (idx: seq<nat>)
    ensures var r := VerifiedOrganizationsInArea(organizations, latitude, longitude, radiusKm);
            |idx| == |r| &&
            (forall k :: 0 <= k < |idx| ==> idx[k] < |organizations| && organizations[idx[k]] == r[k]) &&
            (forall k, l :: 0 <= k < l < |idx| ==> idx[k] < idx[l])
  {
    idx := FilterPositions(organizations, InAreaFilter(radiusKm.GetOr(DefaultAreaRadiusKm)));
  }

  // ----- createOrganization -----

  /** The registration form's data (`OrganizationRegistrationData`), files already uploaded. */
  datatype OrganizationRegistration = OrganizationRegistration(
    organizationName: string,
    registrationNumber: Option<string>,
    organizationType: OrganizationType,
    capacity: int,
    serviceArea: int,
    vehicleInfo: Option<string>,
    preferences: Preferences,
    location: Location)

  const DefaultServiceAreaKm := 10

  /** `x || ''` for an optional string. */
  function OrEmpty(s: Option<string>): (r: string)
    ensures s.Some? ==> r == s.value
    ensures s.None? ==> r == ""
  {
    if TruthyString(s) then s.value else ""
  }

  /**
   * The document `createOrganization` stores: pending verification, all
   * impact counters at zero, a service area of 10 km when none (or 0) was
   * given. `id` is the fresh id the backend assigns, `docIds` the uploaded
   * verification files and `now` the creation time. The form's location is
   * not stored.
   */
  function NewOrganization(id: string, userId: string, data: OrganizationRegistration,
                           docIds: seq<string>, now: int): (o: Organization)
    ensures o.id == id && o.userId == userId && o.createdAt == now
    ensures o.verificationStatus == Pending
    ensures o.impactStats == ImpactStats(0, 0, 0.0)
    ensures o.serviceArea == if data.serviceArea != 0 then data.serviceArea else DefaultServiceAreaKm
    ensures o.serviceArea != 0
    ensures o.capacity == data.capacity
    ensures o.organizationName == data.organizationName && o.organizationType == data.organizationType
    ensures o.registrationNumber == data.registrationNumber.GetOr("")
    ensures o.vehicleInfo == data.vehicleInfo.GetOr("")
    ensures o.verificationDocs == docIds && o.preferences == data.preferences
  {
    Organization(
      id, userId, data.organizationName, OrEmpty(data.registrationNumber), data.organizationType,
      data.capacity,
      if data.serviceArea != 0 then data.serviceArea else DefaultServiceAreaKm,
      OrEmpty(data.vehicleInfo), Pending, docIds, data.preferences,
      ImpactStats(0, 0, 0.0), now)
  }

  /** A newly registered organization handles no donation and appears in no
      area query until it is verified. */
  lemma NewOrganizationNotMatchable(id: string, userId: string, data: OrganizationRegistration,
                                    docIds: seq<string>, now: int, portions: int, foodTypes: seq<FoodType>,
                                    others: seq<Organization>, radiusKm: Option<real>)
    ensures !CanHandleDonation(NewOrganization(id, userId, data, docIds, now), portions, foodTypes)
    ensures NewOrganization(id, userId, data, docIds, now) !in VerifiedOrganizationsInArea(others + [NewOrganization(id, userId, data, docIds, now)], 0.0, 0.0, radiusKm)
  {
  }

  // ----- updateOrganization -----

  /**
   * The attributes `updateOrganization` sends: each of the seven editable
   * fields exactly when its value is truthy (a non-empty string, a non-zero
   * number, a present object), and nothing else.
   */
  method OrganizationUpdateData(data: OrganizationPatch) returns (updateData: OrganizationPatch)
    ensures updateData.organizationName == if TruthyString(data.organizationName) then data.organizationName else None
    ensures updateData.registrationNumber == if TruthyString(data.registrationNumber) then data.registrationNumber else None
    ensures updateData.organizationType == data.organizationType
    ensures updateData.capacity == if TruthyInt(data.capacity) then data.capacity else None
    ensures updateData.serviceArea == if TruthyInt(data.serviceArea) then data.serviceArea else None
    ensures updateData.vehicleInfo == if TruthyString(data.vehicleInfo) then data.vehicleInfo else None
    ensures updateData.preferences == data.preferences
    ensures updateData.userId.None? && updateData.verificationStatus.None? && updateData.verificationDocs.None?
    ensures updateData.impactStats.None? && updateData.createdAt.None?
  {
    updateData := EmptyOrganizationPatch;
    if TruthyString(data.organizationName) {
      updateData := updateData.(organizationName := data.organizationName);
    }
    if TruthyString(data.registrationNumber) {
      updateData := updateData.(registrationNumber := data.registrationNumber);
    }
    if data.organizationType.Some? {
      updateData := updateData.(organizationType := data.organizationType);
    }
    if TruthyInt(data.capacity) {
      updateData := updateData.(capacity := data.capacity);
    }
    if TruthyInt(data.serviceArea) {
      updateData := updateData.(serviceArea := data.serviceArea);
    }
    if TruthyString(data.vehicleInfo) {
      updateData := updateData.(vehicleInfo := data.vehicleInfo);
    }
    if data.preferences.Some? {
      updateData := updateData.(preferences := data.preferences);
    }
  }

  // ----- updateImpactStats -----

  /** The counters after one more recorded pickup. */
  function IncrementedStats(stats: ImpactStats, mealsRescued: int, weightKg: real): (r: ImpactStats)
    ensures r.totalPickups == stats.totalPickups + 1
    ensures r.totalMeals == stats.totalMeals + mealsRescued
    ensures r.totalWeight == stats.totalWeight + weightKg
  {
    ImpactStats(stats.totalPickups + 1, stats.totalMeals + mealsRescued, stats.totalWeight + weightKg)
  }

  function Pickups(o: Organization): int { o.impactStats.totalPickups }
  function Meals(o: Organization): int { o.impactStats.totalMeals }
  function Weight(o: Organization): real { o.impactStats.totalWeight }

  /** Recording a pickup for the k-th organization raises the platform-wide
      totals by one pickup, `mealsRescued` meals and `weightKg` kilograms. */
  lemma TotalsAfterPickup(orgs: seq<Organization>, k: nat, mealsRescued: int, weightKg: real)
    requires k < |orgs|
    ensures var updated := orgs[k := orgs[k].(impactStats := IncrementedStats(orgs[k].impactStats, mealsRescued, weightKg))];
            Sum(updated, Pickups) == Sum(orgs, Pickups) + 1 &&
            Sum(updated, Meals) == Sum(orgs, Meals) + mealsRescued &&
            SumReal(updated, Weight) == SumReal(orgs, Weight) + weightKg
  {
    var o := orgs[k].(impactStats := IncrementedStats(orgs[k].impactStats, mealsRescued, weightKg));
    SumUpdate(orgs, k, o, Pickups);
    SumUpdate(orgs, k, o, Meals);
    SumRealUpdate(orgs, k, o, Weight);
  }

  /** A new organization leaves the platform-wide totals as they were. */
  lemma TotalsWithNewOrganization(orgs: seq<Organization>, o: Organization)
    requires o.impactStats == ImpactStats(0, 0, 0.0)
    ensures Sum(orgs + [o], Pickups) == Sum(orgs, Pickups)
    ensures Sum(orgs + [o], Meals) == Sum(orgs, Meals)
    ensures SumReal(orgs + [o], Weight) == SumReal(orgs, Weight)
  {
    assert (orgs + [o])[..|orgs|] == orgs;
  }

  // ----- getOrganizationStats -----

  datatype OrganizationStats = OrganizationStats(
    totalOrganizations: int,
    verifiedOrganizations: int,
    pendingVerifications: int,
    totalPickups: int,
    totalMealsRescued: int,
    totalWeightRescued: real)

  /** The backend's `verificationStatus == status` query. */
  function HasStatus(status: VerificationStatus): Organization -> bool
  {
    (o: Organization) => o.verificationStatus == status
  }

  /** `getDocument(id)` over the collection: the document with that id, if any. */
  function FindOrganization(orgs: seq<Organization>, id: string): (r: Option<Organization>)
    ensures r.Some? ==> r.value in orgs && r.value.id == id
    ensures r.None? ==> forall o :: o in orgs ==> o.id != id
  {
    if |orgs| == 0 then None
    else if orgs[0].id == id then Some(orgs[0])
    else FindOrganization(orgs[1..], id)
  }

  /**
   * `getOrganizationStats` over the whole collection `allOrgs`. The counts come
   * from the three listings; the totals are those of the organization named by
   * a truthy `organizationId`, or otherwise the sums over every organization.
   * `None` is the failure reported when that id names no document.
   */
  method GetOrganizationStats(allOrgs: seq<Organization>, organizationId: Option<string>)
    returns (r: Option<OrganizationStats>)
    ensures r.None? <==> TruthyString(organizationId) && FindOrganization(allOrgs, organizationId.value).None?
    ensures r.Some? ==>
              r.value.totalOrganizations == |allOrgs| &&
              r.value.verifiedOrganizations == |Filter(allOrgs, HasStatus(Verified))| &&
              r.value.pendingVerifications == |Filter(allOrgs, HasStatus(Pending))|
    ensures r.Some? && !TruthyString(organizationId) ==>
              r.value.totalPickups == Sum(allOrgs, Pickups) &&
              r.value.totalMealsRescued == Sum(allOrgs, Meals) &&
              r.value.totalWeightRescued == SumReal(allOrgs, Weight)
    ensures r.Some? && TruthyString(organizationId) ==>
              var stats := FindOrganization(allOrgs, organizationId.value).value.impactStats;
              r.value.totalPickups == stats.totalPickups &&
              r.value.totalMealsRescued == stats.totalMeals &&
              r.value.totalWeightRescued == stats.totalWeight
  {
    var verifiedOrgs := Filter(allOrgs, HasStatus(Verified));
    var pendingOrgs := Filter(allOrgs, HasStatus(Pending));
    var totalPickups := 0;
    var totalMealsRescued := 0;
    var totalWeightRescued := 0.0;
    if TruthyString(organizationId) {
      var org := FindOrganization(allOrgs, organizationId.value);
      if org.None? {
        return None;
      }
      var stats := org.value.impactStats;
      totalPickups := stats.totalPickups;
      totalMealsRescued := stats.totalMeals;
      totalWeightRescued := stats.totalWeight;
    } else {
      var i := 0;
      while i < |allOrgs|
        invariant 0 <= i <= |allOrgs|
        invariant totalPickups == Sum(allOrgs[..i], Pickups)
        invariant totalMealsRescued == Sum(allOrgs[..i], Meals)
        invariant totalWeightRescued == SumReal(allOrgs[..i], Weight)
      {
        assert allOrgs[..i + 1][..i] == allOrgs[..i];
        var stats := allOrgs[i].impactStats;
        totalPickups := totalPickups + stats.totalPickups;
        totalMealsRescued := totalMealsRescued + stats.totalMeals;
        totalWeightRescued := totalWeightRescued + stats.totalWeight;
        i := i + 1;
      }
      assert allOrgs[..i] == allOrgs;
    }
    r := Some(OrganizationStats(|allOrgs|, |verifiedOrgs|, |pendingOrgs|,
                                totalPickups, totalMealsRescued, totalWeightRescued));
  }

  /** The scenario of two verified organizations and a 50-portion cooked-food
      donation: the 40-portion one is turned down on capacity, the 60-portion
      one that takes cooked food is accepted. */
  lemma CapacityScenario(a: Organization, b: Organization)
    requires a.verificationStatus == Verified && a.capacity == 40
    requires b.verificationStatus == Verified && b.capacity == 60 && b.preferences.foodTypes == Some([Cooked])
    ensures !CanHandleDonation(a, 50, [Cooked])
    ensures CanHandleDonation(b, 50, [Cooked])
  {
    assert Cooked in [Cooked];
  }
}
