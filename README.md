# License service model

A Dafny model of the license service of the licensing microservice (`LicenseService`). The
service keeps licenses in a repository keyed by licenseId. It reads a license by its
(organizationId, licenseId) pair and fails with a not-found error when there is none. It then
enriches the license with the record of its organization, fetched through one of three
organization clients (feign, rest template, discovery) chosen by a client-type tag. Every
license that `getLicense`, `createLicense` and `updateLicense` return carries the configured
comment; the list query returns the stored rows as they are. It also creates, updates and deletes
licenses and lists the licenses of an organization.

Layout:

- `wrappers.dfy`: `Option` (a Java `null`) and `Result` (a thrown exception).
- `model.dfy`: the `License` and `Organization` records and the `NoSuchLicenceFound` error.
- `license_repository.dfy`: the JPA repository as a finite map from licenseId to license.
  Its two derived queries, `save` and `delete` are functions on that map, with lemmas on how
  updates change an organization's list.
- `license_service.dfy`: the client dispatch and the enrichment rule as functions, and the
  class `LicenseService`. The class holds the repository content as a mutable field. It has
  one method per service operation, and the list query is a function on the class.

Boundaries, all given as parameters:

- The message source is a function from message key to template. `String.format` is an
  opaque function of the template and the two ids.
- The configured comment is a constant string.
- The three clients are functions from organizationId to an optional organization.
- The generated UUID of `createLicense` is the `newId` argument of `CreateLicense`.

Two points where the source does not compile as written. The model follows the
service's call shape and does not try to resolve them:

- `OrganizationFeignClient.getOrganization` is declared with an extra `Authorization` header
  argument (`service/client/OrganizationFeignClient.java:12`). The service calls it with the
  organizationId alone (`service/LicenseService.java:92`), so the feign client is modelled as a
  one-argument lookup, like the other two.
- The service imports `com.optimagrowth.license.repository.LicenseRepository`
  (`service/LicenseService.java:6`). The `LicenseRepository` interface is declared in package
  `...repository.jpa` (`repository/jpa/LicenseRepository.java:1`). The model takes that
  interface as the repository the service uses.

`License.java`, `Organization.java`, `ServiceConfig.java`, the rest-template and discovery
clients and `NoSuchLicenceFoundException.java` are not part of this model. The record fields
are the ones the service reads or writes, plus the product name. `withComment` is taken to set
the comment and return the same license.

## Model

| member | source | states |
|---|---|---|
| `LicenseRepository.FindByOrganizationIdAndLicenseId` | src/main/java/com/optimagrowth/license/repository/jpa/LicenseRepository.java:11 | any license found is stored and has the requested organizationId; in a store keyed by id it has the requested licenseId too, and nothing is found exactly when no stored row has both ids |
| `LicenseRepository.FindByOrganizationId` | src/main/java/com/optimagrowth/license/repository/jpa/LicenseRepository.java:12 | the result is exactly the stored licenses of that organization (each one is stored and matches, and every matching entry is in it), and it has no more elements than the store |
| `LicenseRepository.Save` | src/main/java/com/optimagrowth/license/repository/jpa/LicenseRepository.java:10 | upsert: the key set grows by the license's id, that key holds the license as given, every other entry is unchanged, and the primary-key invariant is kept |
| `LicenseRepository.DeleteById` | src/main/java/com/optimagrowth/license/repository/jpa/LicenseRepository.java:10 | the key is removed whether or not it was present, every remaining entry is unchanged, and the primary-key invariant is kept |
| `LicenseRepository.SaveMovesBetweenOrganizations` | src/main/java/com/optimagrowth/license/service/LicenseService.java:72-76 | after a save, an organization's list loses the replaced entry (if any) and gains the saved license when it belongs to that organization; nothing else in the list changes |
| `LicenseRepository.SaveNewGrowsOrganization` | src/main/java/com/optimagrowth/license/service/LicenseService.java:65-69 | saving under an unused id adds exactly that license to its organization's list, which grows by one |
| `LicenseRepository.DeleteLeavesOrganization` | src/main/java/com/optimagrowth/license/service/LicenseService.java:78-84 | deleting by id removes exactly the deleted entry from the organization's list |
| `LicenseRepository.DeleteIgnoresOrganization` | src/main/java/com/optimagrowth/license/service/LicenseService.java:78-84 | deleting by licenseId also removes a license that the keyed lookup cannot reach under another organization; `DeleteLicense` deletes by exactly this function, never using its organizationId |
| `LicenseService.RetrieveOrganizationInfo` | src/main/java/com/optimagrowth/license/service/LicenseService.java:87-103 | "feign" selects the feign client, "discovery" the discovery client, and "rest" and every other tag the rest client |
| `LicenseService.UnknownClientTypeActsAsRest` | src/main/java/com/optimagrowth/license/service/LicenseService.java:102 | any tag other than the three known ones gives exactly the result of "rest" |
| `LicenseService.InterchangeableClientsAgree` | src/main/java/com/optimagrowth/license/service/LicenseService.java:89-103 | when the three clients return the same organization, the choice of tag does not change the result |
| `LicenseService.ApplyOrganization` | src/main/java/com/optimagrowth/license/service/LicenseService.java:53-60 | a returned organization's name, contact name, email and phone overwrite the license's four organization fields; the ids, product name and comment are kept; with no organization the license is unchanged |
| `LicenseService.ApplyOrganizationIdempotent` | src/main/java/com/optimagrowth/license/service/LicenseService.java:53-60 | enriching twice with the same organization gives the same license as enriching once |
| `LicenseService.LicenseService.constructor` | src/main/java/com/optimagrowth/license/service/LicenseService.java:30-42 | the service holds the given repository content, message source, formatter, configured comment and clients |
| `LicenseService.LicenseService.GetLicense` | src/main/java/com/optimagrowth/license/service/LicenseService.java:44-63 | fails with the not-found error exactly when no stored license has both ids, and the error message is the search-error template formatted with (licenseId, organizationId); otherwise returns the stored license enriched from the selected client's answer with the configured comment attached, so the ids are the requested ones; the store is not modified |
| `LicenseService.LicenseService.GetLicenseTwice` | src/main/java/com/optimagrowth/license/service/LicenseService.java:44-63 | two reads in a row with the same client answers return identical results |
| `LicenseService.LicenseService.CreateLicense` | src/main/java/com/optimagrowth/license/service/LicenseService.java:65-70 | the supplied id is replaced by the generated one; the store becomes the old store with that license saved under the new id (one more entry when the id was unused, no other entry changed); the result is that license with the configured comment |
| `LicenseService.LicenseService.UpdateLicense` | src/main/java/com/optimagrowth/license/service/LicenseService.java:72-76 | the license is saved exactly as given under its own id, replacing the previous entry as a whole and leaving others unchanged; the result is the license with the configured comment |
| `LicenseService.LicenseService.DeleteLicense` | src/main/java/com/optimagrowth/license/service/LicenseService.java:78-85 | the entry under licenseId is removed whatever its organization; the message is the delete template formatted with (licenseId, organizationId) |
| `LicenseService.LicenseService.GetLicensesByOrganization` | src/main/java/com/optimagrowth/license/service/LicenseService.java:106-108 | a license is in the result exactly when the keyed lookup finds that same license under the given organization and its own licenseId |

## Left out

- LicenseService.LicenseService.GetLicense: an exception thrown by an organization client (for
  instance a `FeignException` on a non-2xx answer) is not caught and makes `getLicense` throw.
  The model's lookups are total and cannot fail, so "fails exactly when no stored license has
  both ids" holds relative to the lookups' answers, and this second failure path is not modelled.
- The resilience stack is not part of this model. That covers the rate limiter, circuit
  breaker, retry, bulkhead, the fallback license and the injected slow call. None of it is in
  `LicenseService`, where `getLicensesByOrganization` is a plain repository call, and it is
  driven by timing and concurrency.
- `UserContext` and its propagation across threads: a holder of four strings with no behaviour,
  used for concurrency.
- `OrganizationRedisRepository`: an empty repository interface that the service does not use.
- The HTTP transport of the organization clients: each client is an opaque lookup function.
- The diagnostic `System.out.println` lines of the client dispatch.
- The locale-specific message lookup and string formatting are opaque functions. A message key
  missing from the message source, which would raise an exception, is not modelled.
- LicenseService.LicenseService.CreateLicense: `UUID.randomUUID()` is not modelled; the generated id is an argument. Uniqueness across calls, and
  distinctness from a client-supplied id, are properties of the random generator and not of the
  service, so they are not proved. What is proved is what happens when the id is unused.
- Object identity and aliasing: licenses are values. The caller's license object, which
  `createLicense` and `updateLicense` mutate and return, is modelled as the returned value.
  Whether the stored copy later shares the comment set by `withComment` is not modelled. The
  store keeps the license as it was when saved.
- JPA entity management: flushing, transactions and dirty checking. The enrichment done by
  `getLicense` is treated as never written back, which is the behaviour without a transaction.
- `null` arguments, and the exceptions Spring Data raises for them.
- `LicenseService.LicenseService.GetLicensesByOrganization` and
  `LicenseRepository.FindByOrganizationId`: the list is returned as a set, so the order of the
  rows is not modelled. No information is lost beyond order, because the entries are distinct
  by licenseId.
