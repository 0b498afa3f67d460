/**
 * The records the license service works on: a license, the organization record fetched from
 * the organization service, and the error thrown when a license is missing.
 */
module Model {

  /**
   * A license record, kept under its licenseId by the repository. `getLicense` overwrites the
   * four organization fields when the chosen client returns an organization; `getLicense`,
   * `createLicense` and `updateLicense` return the license with the configured comment; the
   * list query returns the stored rows as they are.
   */
  datatype License = License(
    licenseId: string,
    organizationId: string,
    productName: string,
    organizationName: string,
    contactName: string,
    contactEmail: string,
    contactPhone: string,
    comment: string)

  /** An organization as returned by the organization service. */
  datatype Organization = Organization(
    id: string,
    name: string,
    contactName: string,
    contactEmail: string,
    contactPhone: string)

  /** The exception the service raises, carrying its formatted message. */
  datatype ServiceError = NoSuchLicenceFound(message: string)
}
