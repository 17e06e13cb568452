/**
 * The decoded records of the Save&Serve data model: organizations, donations
 * and the partial documents that the backend's `updateDocument` merges into a
 * stored record. Composite fields appear as the structures they encode, not
 * as JSON text; timestamps are milliseconds since the epoch.
 */
module Types {
  import opened Wrappers

  datatype FoodType = Cooked | Packaged | FreshProduce | Bakery | Dairy

  datatype OrganizationType = Shelter | FoodBank | CommunityCenter | Ngo

  datatype VerificationStatus = Pending | Verified | Rejected

  datatype DonationStatus = Available | Claimed | PickedUp | Cancelled | Expired

  datatype Location = Location(lat: real, lng: real, address: string)

  datatype AvailableHours = AvailableHours(start: string, end: string)

  /** `foodTypes` is optional in the stored JSON, which the source reads with `|| []`. */
  datatype Preferences = Preferences(
    foodTypes: Option<seq<FoodType>>,
    availableDays: seq<int>,
    availableHours: AvailableHours)

  datatype ImpactStats = ImpactStats(totalPickups: int, totalMeals: int, totalWeight: real)

  datatype Organization = Organization(
    id: string,
    userId: string,
    organizationName: string,
    registrationNumber: string,
    organizationType: OrganizationType,
    capacity: int,
    serviceArea: int,
    vehicleInfo: string,
    verificationStatus: VerificationStatus,
    verificationDocs: seq<string>,
    preferences: Preferences,
    impactStats: ImpactStats,
    createdAt: int)

  datatype Quantity = Quantity(portions: int, weightKg: real)

  datatype PickupWindow = PickupWindow(startTime: int, endTime: int)

  datatype Donation = Donation(
    id: string,
    donorId: string,
    title: string,
    description: string,
    foodType: seq<FoodType>,
    quantity: Quantity,
    images: seq<string>,
    location: Location,
    pickupWindow: PickupWindow,
    status: DonationStatus,
    specialInstructions: string,
    createdAt: int,
    claimedBy: Option<string>,
    claimedAt: Option<int>,
    completedAt: Option<int>)

  /** A partial donation document: the attributes present are the ones written. */
  datatype DonationPatch = DonationPatch(
    donorId: Option<string>,
    title: Option<string>,
    description: Option<string>,
    foodType: Option<seq<FoodType>>,
    quantity: Option<Quantity>,
    images: Option<seq<string>>,
    location: Option<Location>,
    pickupWindow: Option<PickupWindow>,
    status: Option<DonationStatus>,
    specialInstructions: Option<string>,
    createdAt: Option<int>,
    claimedBy: Option<string>,
    claimedAt: Option<int>,
    completedAt: Option<int>)

  const EmptyDonationPatch := DonationPatch(None, None, None, None, None, None, None,
                                            None, None, None, None, None, None, None)

  function Pick<T>(update: Option<T>, current: T): T
  {
    if update.Some? then update.value else current
  }

  function PickOption<T>(update: Option<T>, current: Option<T>): Option<T>
  {
    if update.Some? then update else current
  }

  /** `Object.assign(base, extra)`: every attribute present in `extra` overrides `base`. */
  function AssignDonationPatch(base: DonationPatch, extra: DonationPatch): DonationPatch
  {
    DonationPatch(
      PickOption(extra.donorId, base.donorId),
      PickOption(extra.title, base.title),
      PickOption(extra.description, base.description),
      PickOption(extra.foodType, base.foodType),
      PickOption(extra.quantity, base.quantity),
      PickOption(extra.images, base.images),
      PickOption(extra.location, base.location),
      PickOption(extra.pickupWindow, base.pickupWindow),
      PickOption(extra.status, base.status),
      PickOption(extra.specialInstructions, base.specialInstructions),
      PickOption(extra.createdAt, base.createdAt),
      PickOption(extra.claimedBy, base.claimedBy),
      PickOption(extra.claimedAt, base.claimedAt),
      PickOption(extra.completedAt, base.completedAt))
  }

  /** The stored donation after the backend merges `p` into it. */
  function ApplyDonationPatch(d: Donation, p: DonationPatch): Donation
  {
    Donation(
      d.id,
      Pick(p.donorId, d.donorId),
      Pick(p.title, d.title),
      Pick(p.description, d.description),
      Pick(p.foodType, d.foodType),
      Pick(p.quantity, d.quantity),
      Pick(p.images, d.images),
      Pick(p.location, d.location),
      Pick(p.pickupWindow, d.pickupWindow),
      Pick(p.status, d.status),
      Pick(p.specialInstructions, d.specialInstructions),
      Pick(p.createdAt, d.createdAt),
      PickOption(p.claimedBy, d.claimedBy),
      PickOption(p.claimedAt, d.claimedAt),
      PickOption(p.completedAt, d.completedAt))
  }

  /** Merging the assigned patch is merging the base and then the extra attributes. */
  lemma ApplyAssign(d: Donation, base: DonationPatch, extra: DonationPatch)
    ensures ApplyDonationPatch(d, AssignDonationPatch(base, extra))
         == ApplyDonationPatch(ApplyDonationPatch(d, base), extra)
  {
  }

  /** A partial organization document (`Partial<Organization>` without the id). */
  datatype OrganizationPatch = OrganizationPatch(
    userId: Option<string>,
    organizationName: Option<string>,
    registrationNumber: Option<string>,
    organizationType: Option<OrganizationType>,
    capacity: Option<int>,
    serviceArea: Option<int>,
    vehicleInfo: Option<string>,
    verificationStatus: Option<VerificationStatus>,
    verificationDocs: Option<seq<string>>,
    preferences: Option<Preferences>,
    impactStats: Option<ImpactStats>,
    createdAt: Option<int>)

  const EmptyOrganizationPatch := OrganizationPatch(None, None, None, None, None, None,
                                                    None, None, None, None, None, None)

  /** The stored organization after the backend merges `p` into it. */
  function ApplyOrganizationPatch(o: Organization, p: OrganizationPatch): Organization
  {
    Organization(
      o.id,
      Pick(p.userId, o.userId),
      Pick(p.organizationName, o.organizationName),
      Pick(p.registrationNumber, o.registrationNumber),
      Pick(p.organizationType, o.organizationType),
      Pick(p.capacity, o.capacity),
      Pick(p.serviceArea, o.serviceArea),
      Pick(p.vehicleInfo, o.vehicleInfo),
      Pick(p.verificationStatus, o.verificationStatus),
      Pick(p.verificationDocs, o.verificationDocs),
      Pick(p.preferences, o.preferences),
      Pick(p.impactStats, o.impactStats),
      Pick(p.createdAt, o.createdAt))
  }

  // ----- JavaScript truthiness of optional attributes -----

  /** An optional string is truthy when present and non-empty. */
  predicate TruthyString(s: Option<string>)
  {
    s.Some? && s.value != ""
  }

  /** An optional number is truthy when present and non-zero (NaN is not modelled). */
  predicate TruthyInt(n: Option<int>)
  {
    n.Some? && n.value != 0
  }
}
