/**
 * The license service: reads a license by its two ids and enriches it with the record of its
 * organization, fetched through one of three interchangeable organization clients chosen by
 * a client-type tag; creates, updates and deletes licenses in the repository; and lists the
 * licenses of an organization.
 */
module LicenseService {
  import opened Wrappers
  import opened Model
  import opened LicenseRepository

  /** Message key of the not-found error. */
  const SearchErrorKey := "license.search.error.message"
  /** Message key of the delete confirmation. */
  const DeleteMessageKey := "license.delete.message"

  /**
   * The three organization clients, each a lookup of an organization by its id that may
   * come back empty (a `null` organization).
   */
  datatype OrganizationClients = OrganizationClients(
    feign: string -> Option<Organization>,
    rest: string -> Option<Organization>,
    discovery: string -> Option<Organization>)

  /**
   * `retrieveOrganizationInfo`: the client-type tag picks the client. "feign" and
   * "discovery" pick their own clients; "rest" and every other tag pick the rest client.
   */
  function RetrieveOrganizationInfo(clients: OrganizationClients, organizationId: string, clientType: string): (r: Option<Organization>)
    ensures clientType == "feign" ==> r == clients.feign(organizationId)
    ensures clientType == "discovery" ==> r == clients.discovery(organizationId)
    ensures clientType != "feign" && clientType != "discovery" ==> r == clients.rest(organizationId)
  {
    match clientType
    case "feign" => clients.feign(organizationId)
    case "rest" => clients.rest(organizationId)
    case "discovery" => clients.discovery(organizationId)
    case _ => clients.rest(organizationId)
  }

  /** Any tag other than the three known ones behaves exactly like "rest". */
  lemma UnknownClientTypeActsAsRest(clients: OrganizationClients, organizationId: string, clientType: string)
    requires clientType != "feign" && clientType != "rest" && clientType != "discovery"
    ensures RetrieveOrganizationInfo(clients, organizationId, clientType)
         == RetrieveOrganizationInfo(clients, organizationId, "rest")
  {
  }

  /** When the three clients answer alike for an organization, the tag makes no difference. */
  lemma InterchangeableClientsAgree(clients: OrganizationClients, organizationId: string, tag1: string, tag2: string)
    requires clients.feign(organizationId) == clients.rest(organizationId) == clients.discovery(organizationId)
    ensures RetrieveOrganizationInfo(clients, organizationId, tag1)
         == RetrieveOrganizationInfo(clients, organizationId, tag2)
  {
  }

  /**
   * The enrichment rule of `getLicense`: when an organization is returned, its name and its
   * three contact fields overwrite the license's; the ids, the product name and the comment
   * stay. When none is returned the license is left as it is.
   */
  function ApplyOrganization(license: License, organization: Option<Organization>): (r: License)
    ensures r.licenseId == license.licenseId
    ensures r.organizationId == license.organizationId
    ensures r.productName == license.productName
    ensures r.comment == license.comment
    ensures organization.Some? ==>
      && r.organizationName == organization.value.name
      && r.contactName == organization.value.contactName
      && r.contactEmail == organization.value.contactEmail
      && r.contactPhone == organization.value.contactPhone
    ensures organization.None? ==> r == license
  {
    match organization
    case None => license
    case Some(o) =>
      license.(organizationName := o.name, contactName := o.contactName,
               contactEmail := o.contactEmail, contactPhone := o.contactPhone)
  }

  /** Enriching an already enriched license with the same organization changes nothing. */
  lemma ApplyOrganizationIdempotent(license: License, organization: Option<Organization>)
    ensures ApplyOrganization(ApplyOrganization(license, organization), organization)
         == ApplyOrganization(license, organization)
  {
  }

  /**
   * The service object. `licenses` is the repository's content; the message source, the
   * string formatter, the configured comment and the three clients are fixed when it is built.
   */
  class LicenseService {
    var licenses: Store
    /** `MessageSource.getMessage` in English: message key to message template. */
    const messages: string -> string
    /** `String.format` of a template with the two ids (licenseId first). */
    const format: (string, string, string) -> string
    /**
     * `config.getProperty()`. Every license that `getLicense`, `createLicense` and
     * `updateLicense` return carries it; the list query returns the stored rows as they are.
     */
    const property: string
    const clients: OrganizationClients

    ghost predicate Valid()
      reads this
    {
      KeyedById(licenses)
    }

    constructor (messages: string -> string, format: (string, string, string) -> string,
                 property: string, clients: OrganizationClients, licenses: Store)
      requires KeyedById(licenses)
      ensures Valid()
      ensures this.licenses == licenses && this.messages == messages && this.format == format
      ensures this.property == property && this.clients == clients
    {
      this.messages := messages;
      this.format := format;
      this.property := property;
      this.clients := clients;
      this.licenses := licenses;
    }

    /**
     * `getLicense`: fails with the not-found error, whose message is the search-error
     * template formatted with both ids, exactly when no stored license has that licenseId
     * and organizationId. Otherwise the stored license is enriched from the organization the
     * chosen client returns and handed back with the configured comment. Nothing is stored.
     */
    method GetLicense(licenseId: string, organizationId: string, clientType: string)
      returns (r: Result<License, ServiceError>)
      requires Valid()
      ensures r.Failure? <==> FindByOrganizationIdAndLicenseId(licenses, organizationId, licenseId).None?
      ensures r.Failure? ==> r.error == NoSuchLicenceFound(format(messages(SearchErrorKey), licenseId, organizationId))
      ensures r.Success? ==>
        r.value == ApplyOrganization(licenses[licenseId],
                                     RetrieveOrganizationInfo(clients, organizationId, clientType)).(comment := property)
      ensures r.Success? ==>
        r.value.licenseId == licenseId && r.value.organizationId == organizationId && r.value.comment == property
    {
      var found := FindByOrganizationIdAndLicenseId(licenses, organizationId, licenseId);
      if found.None? {
        return Failure(NoSuchLicenceFound(format(messages(SearchErrorKey), licenseId, organizationId)));
      }
      var license := found.value;
      var organization := RetrieveOrganizationInfo(clients, organizationId, clientType);
      if organization.Some? {
        license := license.(organizationName := organization.value.name);
        license := license.(contactName := organization.value.contactName);
        license := license.(contactEmail := organization.value.contactEmail);
        license := license.(contactPhone := organization.value.contactPhone);
      }
      r := Success(license.(comment := property));
    }

    /**
     * Not a service operation: a client-side statement of the repeated-read property. Two
     * reads of the same license, with the clients answering as before, give the same result,
     * because enrichment is not stored and is idempotent.
     */
    method GetLicenseTwice(licenseId: string, organizationId: string, clientType: string)
      returns (first: Result<License, ServiceError>, second: Result<License, ServiceError>)
      requires Valid()
      ensures first == second
    {
      first := GetLicense(licenseId, organizationId, clientType);
      second := GetLicense(licenseId, organizationId, clientType);
    }

    /**
     * `createLicense`: the supplied licenseId is replaced by the generated `newId`, the
     * license is stored under it (an existing entry under that key would be replaced), no
     * other entry changes, and the license is returned with the configured comment.
     */
    method CreateLicense(license: License, newId: string) returns (r: License)
      requires Valid()
      modifies this
      ensures Valid()
      ensures licenses == Save(old(licenses), license.(licenseId := newId))
      ensures r == license.(licenseId := newId, comment := property)
      ensures newId !in old(licenses) ==> |licenses| == |old(licenses)| + 1
    {
      var created := license.(licenseId := newId);
      licenses := licenses[created.licenseId := created];
      r := created.(comment := property);
    }

    /**
     * `updateLicense`: the license is stored exactly as given under its own licenseId,
     * replacing the previous entry as a whole; it is returned with the configured comment.
     */
    method UpdateLicense(license: License) returns (r: License)
      requires Valid()
      modifies this
      ensures Valid()
      ensures licenses == Save(old(licenses), license)
      ensures r == license.(comment := property)
    {
      licenses := licenses[license.licenseId := license];
      r := license.(comment := property);
    }

    /**
     * `deleteLicense`: the entry under licenseId is removed whatever its organization; the
     * organizationId only appears in the returned confirmation message.
     */
    method DeleteLicense(licenseId: string, organizationId: string) returns (message: string)
      requires Valid()
      modifies this
      ensures Valid()
      ensures licenses == DeleteById(old(licenses), licenseId)
      ensures message == format(messages(DeleteMessageKey), licenseId, organizationId)
    {
      licenses := licenses - {licenseId};
      message := format(messages(DeleteMessageKey), licenseId, organizationId);
    }

    /**
     * `getLicensesByOrganization`: the stored licenses of the organization, exactly the
     * licenses the keyed lookup finds under that organization and their own licenseId.
     */
    function GetLicensesByOrganization(organizationId: string): (r: set<License>)
      reads this
      requires Valid()
      ensures forall l :: l in r <==>
        FindByOrganizationIdAndLicenseId(licenses, organizationId, l.licenseId) == Some(l)
    {
      var r := FindByOrganizationId(licenses, organizationId);
      assert forall l :: l in r ==> l.licenseId in licenses && licenses[l.licenseId] == l by {
        forall l | l in r ensures l.licenseId in licenses && licenses[l.licenseId] == l {
          var k :| k in licenses && licenses[k] == l;
        }
      }
      r
    }
  }
}
