/**
 * The license repository: a JPA repository of licenses keyed by licenseId, seen as a finite
 * map from licenseId to the stored license. Each query and update of the repository is a
 * function of the map; the service's methods apply them to its mutable store.
 */
module LicenseRepository {
  import opened Wrappers
  import opened Model

  type Store = map<string, License>

  /** The primary-key invariant: every stored license sits under its own licenseId. */
  predicate KeyedById(s: Store) {
    forall k :: k in s ==> s[k].licenseId == k
  }

  /**
   * The derived query `findByOrganizationIdAndLicenseId`: the stored license with both
   * ids, or none. Since licenseId is the key, a match is found under that key alone, and it
   * is exactly a stored row whose two ids are the ones asked for.
   */
  function FindByOrganizationIdAndLicenseId(s: Store, organizationId: string, licenseId: string): (r: Option<License>)
    ensures r.Some? ==> r.value in s.Values
    ensures r.Some? ==> r.value.organizationId == organizationId
    ensures KeyedById(s) ==> (r.Some? ==> r.value.licenseId == licenseId)
    ensures KeyedById(s) ==>
      (r.None? <==> forall l :: l in s.Values ==> !(l.licenseId == licenseId && l.organizationId == organizationId))
  {
    if licenseId in s && s[licenseId].organizationId == organizationId then Some(s[licenseId]) else None
  }

  /**
   * The derived query `findByOrganizationId`: every stored license of the organization.
   * The rows are distinct by key, so they are given as a set (the row order is not modelled).
   */
  function FindByOrganizationId(s: Store, organizationId: string): (r: set<License>)
    ensures forall l :: l in r ==> l in s.Values && l.organizationId == organizationId
    ensures forall k :: k in s && s[k].organizationId == organizationId ==> s[k] in r
    ensures |r| <= |s|
  {
    var r := set k | k in s && s[k].organizationId == organizationId :: s[k];
    assert r <= s.Values;
    SubsetOfValuesIsSmall(s, r);
    r
  }

  /** A set of stored licenses is no larger than the store. */
  lemma {:induction false} SubsetOfValuesIsSmall(s: Store, r: set<License>)
    requires r <= s.Values
    ensures |r| <= |s|
    decreases |s|
  {
    if s != map[] {
      var k :| k in s;
      var rest := s - {k};
      var r' := r - {s[k]};
      assert r' <= rest.Values by {
        forall l | l in r' ensures l in rest.Values {
          var j :| j in s && s[j] == l;
          assert j != k;
          assert rest[j] == l;
        }
      }
      SubsetOfValuesIsSmall(rest, r');
      assert |rest| == |s| - 1;
    } else {
      assert r == {};
    }
  }

  /**
   * `save`: an upsert by key. The license is stored under its licenseId, replacing any
   * entry already there as a whole, and no other entry changes.
   */
  function Save(s: Store, license: License): (r: Store)
    ensures r.Keys == s.Keys + {license.licenseId}
    ensures r[license.licenseId] == license
    ensures forall k :: k in s && k != license.licenseId ==> r[k] == s[k]
    ensures KeyedById(s) ==> KeyedById(r)
  {
    s[license.licenseId := license]
  }

  /**
   * `delete` of a license that carries only its licenseId: the entry under that key is
   * removed if there is one, whatever organization it belongs to, and no other entry changes.
   */
  function DeleteById(s: Store, licenseId: string): (r: Store)
    ensures r.Keys == s.Keys - {licenseId}
    ensures forall k :: k in r ==> r[k] == s[k]
    ensures KeyedById(s) ==> KeyedById(r)
  {
    s - {licenseId}
  }

  /**
   * Saving a license moves it between organization lists: the entry it replaces (if any)
   * leaves its organization's list and the new license joins its own organization's list.
   */
  lemma SaveMovesBetweenOrganizations(s: Store, license: License, organizationId: string)
    requires KeyedById(s)
    ensures FindByOrganizationId(Save(s, license), organizationId)
         == (FindByOrganizationId(s, organizationId)
              - (if license.licenseId in s then {s[license.licenseId]} else {}))
            + (if license.organizationId == organizationId then {license} else {})
  {
  }

  /** Saving a license under a key not yet used adds exactly one license to its organization's list. */
  lemma SaveNewGrowsOrganization(s: Store, license: License)
    requires KeyedById(s)
    requires license.licenseId !in s
    ensures FindByOrganizationId(Save(s, license), license.organizationId)
         == FindByOrganizationId(s, license.organizationId) + {license}
    ensures |FindByOrganizationId(Save(s, license), license.organizationId)|
         == |FindByOrganizationId(s, license.organizationId)| + 1
  {
  }

  /** Deleting by licenseId takes exactly the deleted entry out of its organization's list. */
  lemma DeleteLeavesOrganization(s: Store, licenseId: string, organizationId: string)
    requires KeyedById(s)
    ensures FindByOrganizationId(DeleteById(s, licenseId), organizationId)
         == FindByOrganizationId(s, organizationId) - (if licenseId in s then {s[licenseId]} else {})
  {
  }

  /**
   * Deletion is not scoped by organization: a license that the keyed lookup does not find
   * under some other organization is still removed by a delete of its licenseId.
   */
  lemma DeleteIgnoresOrganization(s: Store, licenseId: string, organizationId: string)
    requires licenseId in s && s[licenseId].organizationId != organizationId
    ensures FindByOrganizationIdAndLicenseId(s, organizationId, licenseId).None?
    ensures FindByOrganizationIdAndLicenseId(s, s[licenseId].organizationId, licenseId).Some?
    ensures forall o :: FindByOrganizationIdAndLicenseId(DeleteById(s, licenseId), o, licenseId).None?
  {
  }
}
