/**
 * An in-memory stand-in for the two document collections the wrappers write
 * to. `createDocument` stores a new record under a fresh id and
 * `updateDocument` merges a partial document into a stored one, failing when
 * the id is unknown; a failed call changes nothing and yields `None`.
 */
module Database {
  import opened Wrappers
  import opened Types
  import Organizations
  import Donations

  class Store {
    var donations: map<string, Donation>
    var organizations: map<string, Organization>

    /** Every record is stored under its own id, so a record read back or
        written by an update always carries the id it was asked for. */
    ghost predicate Valid()
      reads this
    {
      (forall k :: k in donations ==> donations[k].id == k) &&
      (forall k :: k in organizations ==> organizations[k].id == k)
    }

    constructor ()
      ensures Valid() && donations == map[] && organizations == map[]
    {
      donations := map[];
      organizations := map[];
    }

    /** `canHandleDonation` on the stored organization; `None` is the failure
        reported when the id names no document. */
    function CanHandleDonation(organizationId: string, portions: int, foodTypes: seq<FoodType>): (r: Option<bool>)
      reads this
      ensures r.None? <==> organizationId !in organizations
      ensures r.Some? ==> (r.value ==> organizations[organizationId].verificationStatus == Verified &&
                                       portions <= organizations[organizationId].capacity)
      ensures r.Some? ==> r.value == Organizations.CanHandleDonation(organizations[organizationId], portions, foodTypes)
    {
      if organizationId in organizations
      then Some(Organizations.CanHandleDonation(organizations[organizationId], portions, foodTypes))
      else None
    }

    /** `createDonation`; `id` is the fresh id `ID.unique()` provides. */
    method CreateDonation(id: string, donorId: string, data: Donations.DonationForm,
                          imageIds: seq<string>, now: int) returns (created: Donation)
      requires Valid() && id !in donations
      modifies this
      ensures Valid()
      ensures created == Donations.NewDonation(id, donorId, data, imageIds, now)
      ensures donations == old(donations)[id := created] && organizations == old(organizations)
    {
      created := Donations.NewDonation(id, donorId, data, imageIds, now);
      donations := donations[id := created];
    }

    /** `claimDonation`: always marks the donation claimed, whatever its status. */
    method ClaimDonation(donationId: string, organizationId: string, now: int)
      returns (result: Option<Donation>)
      requires Valid()
      modifies this
      ensures Valid() && organizations == old(organizations)
      ensures result.Some? <==> donationId in old(donations)
      ensures result.Some? ==> result.value.id == donationId
      ensures result.Some? ==>
                result.value == Donations.ClaimedDonation(old(donations)[donationId], organizationId, now) &&
                donations == old(donations)[donationId := result.value]
      ensures result.None? ==> donations == old(donations)
    {
      if donationId !in donations {
        return None;
      }
      var claimed := Donations.ClaimedDonation(donations[donationId], organizationId, now);
      donations := donations[donationId := claimed];
      result := Some(claimed);
    }

    /** `updateDonationStatus`: writes the status, `completedAt` for a pickup,
        and then the additional attributes. */
    method UpdateDonationStatus(donationId: string, status: DonationStatus, now: int,
                                additionalData: Option<DonationPatch>)
      returns (result: Option<Donation>)
      requires Valid()
      modifies this
      ensures Valid() && organizations == old(organizations)
      ensures result.Some? <==> donationId in old(donations)
      ensures result.Some? ==> result.value.id == donationId
      ensures result.None? ==> donations == old(donations)
      ensures result.Some? ==>
                var extra := additionalData.GetOr(EmptyDonationPatch);
                var before := old(donations)[donationId];
                donations == old(donations)[donationId := result.value] &&
                result.value.status == Pick(extra.status, status) &&
                result.value.completedAt ==
                  (if extra.completedAt.Some? then extra.completedAt
                   else if status == PickedUp then Some(now) else before.completedAt) &&
                result.value.(status := before.status, completedAt := before.completedAt) ==
                  ApplyDonationPatch(before, extra.(status := None, completedAt := None))
    {
      if donationId !in donations {
        return None;
      }
      var updateData := Donations.StatusUpdateData(status, now, additionalData);
      var updated := ApplyDonationPatch(donations[donationId], updateData);
      donations := donations[donationId := updated];
      result := Some(updated);
    }

    /** `createOrganization`; `id` is the fresh id `ID.unique()` provides. */
    method CreateOrganization(id: string, userId: string, data: Organizations.OrganizationRegistration,
                              docIds: seq<string>, now: int) returns (created: Organization)
      requires Valid() && id !in organizations
      modifies this
      ensures Valid()
      ensures created == Organizations.NewOrganization(id, userId, data, docIds, now)
      ensures organizations == old(organizations)[id := created] && donations == old(donations)
    {
      created := Organizations.NewOrganization(id, userId, data, docIds, now);
      organizations := organizations[id := created];
    }

    /** `updateOrganization`: only truthy editable attributes are written, so the
        owner, verification status, documents and impact counters never change. */
    method UpdateOrganization(organizationId: string, data: OrganizationPatch)
      returns (result: Option<Organization>)
      requires Valid()
      modifies this
      ensures Valid() && donations == old(donations)
      ensures result.Some? <==> organizationId in old(organizations)
      ensures result.Some? ==> result.value.id == organizationId
      ensures result.None? ==> organizations == old(organizations)
      ensures result.Some? ==>
                var before := old(organizations)[organizationId];
                organizations == old(organizations)[organizationId := result.value] &&
                result.value.userId == before.userId &&
                result.value.verificationStatus == before.verificationStatus &&
                result.value.verificationDocs == before.verificationDocs &&
                result.value.impactStats == before.impactStats &&
                result.value.createdAt == before.createdAt &&
                result.value.capacity == (if TruthyInt(data.capacity) then data.capacity.value else before.capacity) &&
                result.value.serviceArea == (if TruthyInt(data.serviceArea) then data.serviceArea.value else before.serviceArea) &&
                result.value.organizationName == (if TruthyString(data.organizationName) then data.organizationName.value else before.organizationName) &&
                result.value.registrationNumber == (if TruthyString(data.registrationNumber) then data.registrationNumber.value else before.registrationNumber) &&
                result.value.vehicleInfo == (if TruthyString(data.vehicleInfo) then data.vehicleInfo.value else before.vehicleInfo) &&
                result.value.organizationType == Pick(data.organizationType, before.organizationType) &&
                result.value.preferences == Pick(data.preferences, before.preferences)
    {
      if organizationId !in organizations {
        return None;
      }
      var updateData := Organizations.OrganizationUpdateData(data);
      var updated := ApplyOrganizationPatch(organizations[organizationId], updateData);
      organizations := organizations[organizationId := updated];
      result := Some(updated);
    }

    /** `updateVerificationStatus`: the administrator's decision on an organization. */
    method UpdateVerificationStatus(organizationId: string, status: VerificationStatus)
      returns (result: Option<Organization>)
      requires Valid()
      modifies this
      ensures Valid() && donations == old(donations)
      ensures result.Some? <==> organizationId in old(organizations)
      ensures result.Some? ==> result.value.id == organizationId
      ensures result.None? ==> organizations == old(organizations)
      ensures result.Some? ==>
                result.value == old(organizations)[organizationId].(verificationStatus := status) &&
                organizations == old(organizations)[organizationId := result.value]
    {
      if organizationId !in organizations {
        return None;
      }
      var updated := organizations[organizationId].(verificationStatus := status);
      organizations := organizations[organizationId := updated];
      result := Some(updated);
    }

    /** `updateImpactStats`: one more pickup, with its meals and weight. */
    method UpdateImpactStats(organizationId: string, mealsRescued: int, weightKg: real)
      returns (result: Option<Organization>)
      requires Valid()
      modifies this
      ensures Valid() && donations == old(donations)
      ensures result.Some? <==> organizationId in old(organizations)
      ensures result.Some? ==> result.value.id == organizationId
      ensures result.None? ==> organizations == old(organizations)
      ensures result.Some? ==>
                var before := old(organizations)[organizationId];
                result.value == before.(impactStats := Organizations.IncrementedStats(before.impactStats, mealsRescued, weightKg)) &&
                organizations == old(organizations)[organizationId := result.value]
    {
      if organizationId !in organizations {
        return None;
      }
      var before := organizations[organizationId];
      var updated := before.(impactStats := Organizations.IncrementedStats(before.impactStats, mealsRescued, weightKg));
      organizations := organizations[organizationId := updated];
      result := Some(updated);
    }
  }
}
