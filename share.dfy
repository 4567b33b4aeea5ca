/**
 * The Share record: a public link to a document. Its own rules are the
 * `checkDomain` hook that runs before an update is saved, the `isRevoked` and
 * `canonicalUrl` getters, `revoke`, and the defaults and validators of the
 * `views`, `urlId` and `domain` columns.
 *
 * The clock is a parameter; the domains already owned by teams and those held
 * by other shares are sets; the slug pattern and the fully-qualified-domain-name
 * test are parameters.
 */
module Shares {
  import opened Wrappers
  import JsStrings

  /** A point in time (what a `Date` holds). */
  type Time = nat

  const MaxDomainLength: nat := 255
  const DomainInUse: string := "Domain is already in use"

  /** The columns an update can change; only `urlId` and `domain` carry validators. */
  datatype Column = RevokedAtColumn | RevokedByIdColumn | UrlIdColumn | DomainColumn

  /**
   * Why a save is refused: a column validator failed, the hook threw a
   * ValidationError, or the database's unique constraint on `domain` refused the row.
   */
  datatype SaveError = InvalidColumn | ValidationError(message: string) | UniqueViolation

  /** The `urlId` validator: null is allowed, anything else must match the slug pattern. */
  predicate UrlIdValid(urlId: Option<string>, isSlug: string -> bool)
  {
    urlId.None? || isSlug(urlId.value)
  }

  /** The `domain` validators: null is allowed, anything else must be at most 255 characters and a FQDN. */
  predicate DomainValid(domain: Option<string>, isFqdn: string -> bool)
  {
    domain.None? || (|domain.value| <= MaxDomainLength && isFqdn(domain.value))
  }

  /** `!domain`: null and the empty string are both "no domain". */
  predicate NoDomain(domain: Option<string>)
  {
    domain.None? || domain.value == ""
  }

  /** The domain as the hook leaves it: lowercased when there is one. */
  function NormalizeDomain(domain: Option<string>): (r: Option<string>)
    ensures NoDomain(domain) ==> r == domain
    ensures !NoDomain(domain) ==> r.Some? && |r.value| == |domain.value| && r.value != ""
    ensures !NoDomain(domain) ==> forall k :: 0 <= k < |r.value| ==> !('A' <= r.value[k] <= 'Z')
    ensures !NoDomain(domain) ==> forall k :: 0 <= k < |r.value| ==> r.value[k] == JsStrings.LowerChar(domain.value[k])
  {
    if NoDomain(domain) then domain else Some(JsStrings.Lower(domain.value))
  }

  /** The hook refuses the domain: some team already owns its lowercase form. */
  predicate DomainTaken(domain: Option<string>, teamDomains: set<string>)
  {
    !NoDomain(domain) && JsStrings.Lower(domain.value) in teamDomains
  }

  /** The update writes `domain`: the caller changed it, or the hook lowercased it. */
  predicate DomainWritten(before: Option<string>, changed: set<Column>)
  {
    DomainColumn in changed || NormalizeDomain(before) != before
  }

  /**
   * What an update of a stored share ends in once its changed columns have
   * passed validation. The hook runs first and throws when a team owns the
   * lowered domain. A domain the hook changed is validated again. When the
   * update writes `domain` (changed by the caller or by the hook), the unique
   * constraint refuses a value another share already holds.
   */
  function UpdateOutcome(
    before: Option<string>, changed: set<Column>, teamDomains: set<string>, shareDomains: set<string>,
    isFqdn: string -> bool): (r: Outcome<SaveError>)
    ensures DomainTaken(before, teamDomains) ==> r == Fail(ValidationError(DomainInUse))
    ensures r.Pass? ==> !DomainTaken(before, teamDomains)
    ensures r.Pass? && NormalizeDomain(before) != before ==> DomainValid(NormalizeDomain(before), isFqdn)
    ensures NormalizeDomain(before) == before && DomainColumn !in changed ==>
      (r.Fail? <==> DomainTaken(before, teamDomains))
    ensures (!DomainTaken(before, teamDomains) && NormalizeDomain(before) != before
             && !DomainValid(NormalizeDomain(before), isFqdn)) ==> r == Fail(InvalidColumn)
    ensures (!DomainTaken(before, teamDomains)
             && (NormalizeDomain(before) == before || DomainValid(NormalizeDomain(before), isFqdn))
             && DomainWritten(before, changed) && NormalizeDomain(before).Some?
             && NormalizeDomain(before).value in shareDomains) ==> r == Fail(UniqueViolation)
    ensures r.Pass? && DomainWritten(before, changed) && NormalizeDomain(before).Some? ==>
      NormalizeDomain(before).value !in shareDomains
    ensures r.Fail? ==>
      DomainTaken(before, teamDomains)
      || (NormalizeDomain(before) != before && !DomainValid(NormalizeDomain(before), isFqdn))
      || (DomainWritten(before, changed) && NormalizeDomain(before).Some?
          && NormalizeDomain(before).value in shareDomains)
    ensures r == Fail(UniqueViolation) ==>
      NormalizeDomain(before).Some? && NormalizeDomain(before).value in shareDomains
  {
    var after := NormalizeDomain(before);
    if DomainTaken(before, teamDomains) then Fail(ValidationError(DomainInUse))
    else if after != before && !DomainValid(after, isFqdn) then Fail(InvalidColumn)
    else if DomainWritten(before, changed) && after.Some? && after.value in shareDomains then
      Fail(UniqueViolation)
    else Pass
  }

  /** Running the hook on its own output changes nothing more. */
  lemma NormalizeDomainIdempotent(domain: Option<string>)
    ensures NormalizeDomain(NormalizeDomain(domain)) == NormalizeDomain(domain)
  {
    if !NoDomain(domain) {
      JsStrings.LowerIdempotent(domain.value);
    }
  }

  /** A second check of an already lowercased domain gives the same verdict as the first. */
  lemma DomainTakenAfterNormalize(domain: Option<string>, teamDomains: set<string>)
    ensures DomainTaken(NormalizeDomain(domain), teamDomains) == DomainTaken(domain, teamDomains)
  {
    if !NoDomain(domain) {
      JsStrings.LowerIdempotent(domain.value);
    }
  }

  class Share {
    const id: string
    var published: bool
    var includeChildDocuments: bool
    var revokedAt: Option<Time>
    var lastAccessedAt: Option<Time>
    /** Total count of times the shared link has been accessed. */
    var views: int
    var urlId: Option<string>
    var domain: Option<string>
    var revokedById: Option<string>
    var userId: string
    var teamId: string
    var documentId: string

    /** A new share: `views` defaults to 0; it is neither revoked nor accessed yet. */
    constructor (
      id: string, userId: string, teamId: string, documentId: string,
      published: bool, includeChildDocuments: bool, urlId: Option<string>, domain: Option<string>)
      ensures this.id == id && this.userId == userId && this.teamId == teamId && this.documentId == documentId
      ensures this.published == published && this.includeChildDocuments == includeChildDocuments
      ensures this.urlId == urlId && this.domain == domain
      ensures views == 0 && revokedAt.None? && revokedById.None? && lastAccessedAt.None?
      ensures !IsRevoked()
    {
      this.id, this.userId, this.teamId, this.documentId := id, userId, teamId, documentId;
      this.published, this.includeChildDocuments := published, includeChildDocuments;
      this.urlId, this.domain := urlId, domain;
      views := 0;
      revokedAt, revokedById, lastAccessedAt := None, None, None;
    }

    /** `isRevoked`: true exactly when a revocation time is recorded (any `Date` is truthy). */
    predicate IsRevoked()
      reads this
      ensures IsRevoked() <==> revokedAt.Some?
    {
      match revokedAt
      case Some(_) => true
      case None => false
    }

    /**
     * `canonicalUrl`: the team URL, then `/s/`, then the share's slug, which is
     * `urlId` when it is set and non-empty and the share's `id` otherwise.
     */
    function CanonicalUrl(teamUrl: string): (url: string)
      reads this
      ensures |url| >= |teamUrl| + 3
      ensures url[..|teamUrl|] == teamUrl && url[|teamUrl|..|teamUrl| + 3] == "/s/"
      ensures urlId.Some? && urlId.value != "" ==> url[|teamUrl| + 3..] == urlId.value
      ensures urlId.None? || urlId.value == "" ==> url[|teamUrl| + 3..] == id
    {
      var slug := if urlId.Some? && urlId.value != "" then urlId.value else id;
      teamUrl + "/s/" + slug
    }

    /**
     * The column validators, run on the given columns only (an update validates
     * the columns it changes): `urlId` may be null but otherwise must match the
     * slug pattern; `domain` may be null but otherwise must be at most 255
     * characters and a fully qualified domain name.
     */
    predicate Validates(columns: set<Column>, isSlug: string -> bool, isFqdn: string -> bool)
      reads this
      ensures Validates(columns, isSlug, isFqdn) && DomainColumn in columns && domain.Some? ==>
        |domain.value| <= MaxDomainLength && isFqdn(domain.value)
      ensures Validates(columns, isSlug, isFqdn) && UrlIdColumn in columns && urlId.Some? ==> isSlug(urlId.value)
      ensures DomainColumn in columns && domain.Some? && |domain.value| > MaxDomainLength ==>
        !Validates(columns, isSlug, isFqdn)
      ensures UrlIdColumn !in columns && DomainColumn !in columns ==> Validates(columns, isSlug, isFqdn)
    {
      (UrlIdColumn in columns ==> UrlIdValid(urlId, isSlug))
      && (DomainColumn in columns ==> DomainValid(domain, isFqdn))
    }

    /**
     * The `checkDomain` before-update hook: with no domain it does nothing;
     * otherwise it lowercases the domain in place and then fails exactly when a
     * team already owns that lowercase domain (the domain stays lowercased).
     */
    method CheckDomain(teamDomains: set<string>) returns (r: Outcome<SaveError>)
      modifies this`domain
      ensures domain == NormalizeDomain(old(domain))
      ensures r.Fail? <==> DomainTaken(old(domain), teamDomains)
      ensures r.Fail? ==> r.error == ValidationError(DomainInUse)
    {
      if NoDomain(domain) {
        return Pass;
      }
      domain := Some(JsStrings.Lower(domain.value));
      if domain.value in teamDomains {
        return Fail(ValidationError(DomainInUse));
      }
      return Pass;
    }

    /**
     * Saving a stored share whose `changed` columns were updated: those
     * columns are validated, then the `checkDomain` hook runs, then a domain
     * the hook changed is validated, then the row is written, which the unique
     * constraint on `domain` may refuse. Only the hook changes a field.
     */
    method Save(
      changed: set<Column>, teamDomains: set<string>, shareDomains: set<string>,
      isSlug: string -> bool, isFqdn: string -> bool)
      returns (r: Outcome<SaveError>)
      modifies this`domain
      ensures !old(Validates(changed, isSlug, isFqdn)) ==> r == Fail(InvalidColumn) && domain == old(domain)
      ensures old(Validates(changed, isSlug, isFqdn)) ==>
        domain == NormalizeDomain(old(domain))
        && r == UpdateOutcome(old(domain), changed, teamDomains, shareDomains, isFqdn)
    {
      if !Validates(changed, isSlug, isFqdn) {
        return Fail(InvalidColumn);
      }
      var before := domain;
      r := CheckDomain(teamDomains);
      if r.Fail? {
        return;
      }
      var hookChanged := domain != before;
      if hookChanged && !DomainValid(domain, isFqdn) {
        return Fail(InvalidColumn);
      }
      if (DomainColumn in changed || hookChanged) && domain.Some? && domain.value in shareDomains {
        return Fail(UniqueViolation);
      }
    }

    /**
     * `revoke(userId)`: records the time and the revoking user, after which the
     * share is revoked, and saves the two changed columns. Neither carries a
     * validator, so an invalid stored `urlId`, or an invalid domain the hook
     * leaves unchanged, does not stop it; a domain the hook lowercases is
     * validated again. Apart from what the save hook does to the domain, no
     * other field changes.
     */
    method Revoke(
      revoker: string, now: Time, teamDomains: set<string>, shareDomains: set<string>,
      isSlug: string -> bool, isFqdn: string -> bool)
      returns (r: Outcome<SaveError>)
      modifies this`revokedAt, this`revokedById, this`domain
      ensures revokedAt == Some(now) && revokedById == Some(revoker) && IsRevoked()
      ensures domain == NormalizeDomain(old(domain))
      ensures r == UpdateOutcome(old(domain), {RevokedAtColumn, RevokedByIdColumn}, teamDomains, shareDomains, isFqdn)
    {
      revokedAt := Some(now);
      revokedById := Some(revoker);
      r := Save({RevokedAtColumn, RevokedByIdColumn}, teamDomains, shareDomains, isSlug, isFqdn);
    }
  }
}
