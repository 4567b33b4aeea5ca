/**
 * The GitHub App `github.callback` route: the decision procedure that ends an
 * OAuth 2.0 authorization-code redirect (with the error response of section
 * 4.1.2.1 of RFC 6749) and, on success, writes one IntegrationAuthentication
 * and one Integration linked to it.
 *
 * The platform client is an input (the installations visible to the user after
 * the code exchange); the record store is the class CredentialStore.
 */
module GitHubCallback {
  import opened Wrappers

  /** Values of the `setup_action` query parameter. */
  datatype SetupAction = Install | Update | Request

  /** The validated query of the callback redirect. */
  datatype CallbackQuery = CallbackQuery(
    code: Option<string>,
    state: Option<string>,
    error: Option<string>,
    installationId: Option<nat>,
    setupAction: Option<SetupAction>)

  /** The authenticated user: its own id and the id of its team (workspace). */
  datatype User = User(id: string, teamId: string)

  /** The account an installation belongs to; enterprise accounts have no `login`. */
  datatype Account = Account(id: nat, login: Option<string>, avatarUrl: string)

  /** One entry of an installation's permission map: resource name and granted permission. */
  type Permission = (string, string)

  /** An App installation as the platform lists it; `permissions` in the map's entry order. */
  datatype Installation = Installation(id: nat, account: Option<Account>, permissions: seq<Permission>)

  /** Where the handler sends the browser. */
  datatype Redirect = ErrorUrl(reason: string) | InstallRequestUrl | SuccessUrl

  /** The code exchange the handler asks of the platform: the code and the `state` value. */
  datatype Exchange = Exchange(code: Option<string>, state: Option<string>)

  datatype Service = GitHub
  datatype IntegrationType = Embed

  /** The account part of the stored settings; each field is absent when the account is. */
  datatype AccountSummary = AccountSummary(id: Option<nat>, name: Option<string>, avatarUrl: Option<string>)

  /** The stored `settings.github.installation`. */
  datatype Settings = Settings(installationId: nat, account: AccountSummary)

  datatype Authentication = Authentication(
    id: nat, service: Service, userId: string, teamId: string, scopes: seq<string>)

  datatype Integration = Integration(
    id: nat, service: Service, kind: IntegrationType, userId: string, teamId: string,
    authenticationId: nat, settings: Settings)

  /** One row written to the store. */
  datatype Record = AuthenticationRow(authentication: Authentication) | IntegrationRow(integration: Integration)

  /** What one callback does: where it redirects, the exchange it requests, and the rows it writes in order. */
  datatype Response = Response(redirect: Redirect, exchange: Option<Exchange>, writes: seq<Record>)

  const Unauthenticated: string := "unauthenticated"
  const ScopeSeparator: char := ':'

  /** `if (error)`: a provider error is present and not the empty string. */
  predicate HasError(q: CallbackQuery)
  {
    q.error.Some? && q.error.value != ""
  }

  /** `i.id === installationId`: an absent query id matches no installation. */
  predicate Matches(i: Installation, installationId: Option<nat>)
  {
    installationId == Some(i.id)
  }

  /** The scope string of one permission entry: `name:permission`. */
  function Scope(p: Permission): string
  {
    p.0 + [ScopeSeparator] + p.1
  }

  /** `Object.entries(permissions).map(([name, permission]) => name + ":" + permission)`. */
  function Scopes(permissions: seq<Permission>): (scopes: seq<string>)
    ensures |scopes| == |permissions|
    ensures forall k :: 0 <= k < |permissions| ==> scopes[k] == Scope(permissions[k])
    ensures forall k :: 0 <= k < |scopes| ==> ScopeSeparator in scopes[k]
  {
    if permissions == [] then []
    else
      assert Scope(permissions[0])[|permissions[0].0|] == ScopeSeparator;
      [Scope(permissions[0])] + Scopes(permissions[1..])
  }

  /** The position of the first installation whose id is the query's, as lodash `find` picks it. */
  function FindInstallation(installations: seq<Installation>, installationId: Option<nat>): (r: Option<nat>)
    ensures r.Some? ==> r.value < |installations| && Matches(installations[r.value], installationId)
    ensures r.Some? ==> forall k :: 0 <= k < r.value ==> !Matches(installations[k], installationId)
    ensures r.None? <==> forall k :: 0 <= k < |installations| ==> !Matches(installations[k], installationId)
  {
    if installations == [] then None
    else if Matches(installations[0], installationId) then Some(0)
    else match FindInstallation(installations[1..], installationId)
      case None => None
      case Some(k) => Some(k + 1)
  }

  function Summary(account: Option<Account>): AccountSummary
  {
    match account
    case None => AccountSummary(None, None, None)
    case Some(a) => AccountSummary(Some(a.id), a.login, Some(a.avatarUrl))
  }

  /** The integration row `b` is backed by the authentication row `a`: same id, user and team. */
  predicate Backs(a: Record, b: Integration)
  {
    a.AuthenticationRow? && a.authentication.id == b.authenticationId
    && a.authentication.userId == b.userId && a.authentication.teamId == b.teamId
  }

  /** The two rows of a successful callback, the authentication first, with ids `nextId` and `nextId + 1`. */
  function SuccessWrites(q: CallbackQuery, user: User, installation: Installation, nextId: nat): seq<Record>
    requires Matches(installation, q.installationId)
  {
    var authentication := Authentication(nextId, GitHub, user.id, user.teamId, Scopes(installation.permissions));
    var integration := Integration(
      nextId + 1, GitHub, Embed, user.id, user.teamId, authentication.id,
      Settings(q.installationId.value, Summary(installation.account)));
    [AuthenticationRow(authentication), IntegrationRow(integration)]
  }

  /**
   * The callback as a function of the query, the user, the installations the
   * platform lists for the exchanged code, and the next free record id.
   * It writes either nothing or exactly two linked rows, and the two happen
   * together with a redirect to the success URL.
   */
  function Handle(q: CallbackQuery, user: User, installations: seq<Installation>, nextId: nat): (r: Response)
    ensures r.writes == [] || |r.writes| == 2
    ensures r.writes != [] <==> r.redirect == SuccessUrl
    ensures r.writes != [] ==> r.writes[0].AuthenticationRow? && r.writes[1].IntegrationRow?
    ensures r.writes != [] ==> Backs(r.writes[0], r.writes[1].integration)
    ensures r.exchange.None? ==> r.writes == []
  {
    if HasError(q) then Response(ErrorUrl(q.error.value), None, [])
    else if q.setupAction == Some(Request) then Response(InstallRequestUrl, None, [])
    else
      var exchange := Some(Exchange(q.code, q.state));
      match FindInstallation(installations, q.installationId)
      case None => Response(ErrorUrl(Unauthenticated), exchange, [])
      case Some(k) => Response(SuccessUrl, exchange, SuccessWrites(q, user, installations[k], nextId))
  }

  /** A provider error wins over everything: redirect carrying it, no exchange, no writes. */
  lemma ErrorRedirects(q: CallbackQuery, user: User, installations: seq<Installation>, nextId: nat)
    requires HasError(q)
    ensures Handle(q, user, installations, nextId) == Response(ErrorUrl(q.error.value), None, [])
  {
  }

  /** With no error, `setup_action=request` goes to the install-request URL, with no exchange and no writes. */
  lemma InstallRequestRedirects(q: CallbackQuery, user: User, installations: seq<Installation>, nextId: nat)
    requires !HasError(q) && q.setupAction == Some(Request)
    ensures Handle(q, user, installations, nextId) == Response(InstallRequestUrl, None, [])
  {
  }

  /** When no listed installation has the query's id, the callback fails as unauthenticated and writes nothing. */
  lemma UnmatchedInstallationFails(q: CallbackQuery, user: User, installations: seq<Installation>, nextId: nat)
    requires !HasError(q) && q.setupAction != Some(Request)
    requires forall k :: 0 <= k < |installations| ==> q.installationId != Some(installations[k].id)
    ensures Handle(q, user, installations, nextId)
      == Response(ErrorUrl(Unauthenticated), Some(Exchange(q.code, q.state)), [])
  {
  }

  /** An absent `installation_id` always takes the unauthenticated path, whatever is listed. */
  lemma MissingInstallationIdFails(q: CallbackQuery, user: User, installations: seq<Installation>, nextId: nat)
    requires !HasError(q) && q.setupAction != Some(Request) && q.installationId.None?
    ensures Handle(q, user, installations, nextId)
      == Response(ErrorUrl(Unauthenticated), Some(Exchange(q.code, q.state)), [])
  {
  }

  /**
   * On success the first listed installation with the query's id is used:
   * an authentication row (GitHub, the user's id and team, that installation's
   * scopes), then an Embed integration row pointing at it and recording the
   * query's installation id; then the redirect to the success URL.
   */
  lemma SuccessWritesLinkedPair(
    q: CallbackQuery, user: User, installations: seq<Installation>, nextId: nat, k: nat)
    requires !HasError(q) && q.setupAction != Some(Request)
    requires k < |installations| && Matches(installations[k], q.installationId)
    requires forall j :: 0 <= j < k ==> !Matches(installations[j], q.installationId)
    ensures var r := Handle(q, user, installations, nextId);
      && r.redirect == SuccessUrl
      && r.exchange == Some(Exchange(q.code, q.state))
      && |r.writes| == 2
      && r.writes[0] == AuthenticationRow(
           Authentication(nextId, GitHub, user.id, user.teamId, Scopes(installations[k].permissions)))
      && r.writes[1].IntegrationRow?
      && var i := r.writes[1].integration;
         && i.service == GitHub && i.kind == Embed
         && i.authenticationId == r.writes[0].authentication.id
         && i.userId == user.id && i.teamId == user.teamId
         && Some(i.settings.installationId) == q.installationId
         && i.settings.account == Summary(installations[k].account)
  {
  }

  /** `state` only reaches the code exchange: the redirect and the rows written do not depend on it. */
  lemma StateOnlyReachesExchange(
    q: CallbackQuery, state: Option<string>, user: User, installations: seq<Installation>, nextId: nat)
    ensures var r, r' := Handle(q, user, installations, nextId), Handle(q.(state := state), user, installations, nextId);
      r'.redirect == r.redirect && r'.writes == r.writes
      && (r.exchange.Some? ==> r'.exchange == Some(r.exchange.value.(state := state)))
  {
  }

  /** No resource name holds two entries (the keys of a JavaScript object are distinct). */
  predicate DistinctNames(permissions: seq<Permission>)
  {
    forall i, j :: 0 <= i < j < |permissions| ==> permissions[i].0 != permissions[j].0
  }

  /** No resource name contains the scope separator. */
  predicate PlainNames(permissions: seq<Permission>)
  {
    forall k :: 0 <= k < |permissions| ==> ScopeSeparator !in permissions[k].0
  }

  /** A scope determines its name and its permission when the name has no separator. */
  lemma ScopeInjective(p: Permission, p': Permission)
    requires ScopeSeparator !in p.0 && ScopeSeparator !in p'.0
    requires Scope(p) == Scope(p')
    ensures p == p'
  {
    var s := Scope(p);
    // In a scope, the name's length is the position of the first separator.
    assert s[|p.0|] == ScopeSeparator && Scope(p')[|p'.0|] == ScopeSeparator;
    assert forall i :: 0 <= i < |p.0| ==> s[i] == p.0[i] != ScopeSeparator;
    assert forall i :: 0 <= i < |p'.0| ==> Scope(p')[i] == p'.0[i] != ScopeSeparator;
    if |p.0| != |p'.0| {
      assert false;
    }
    assert p.0 == s[..|p.0|] == p'.0;
    assert p.1 == s[|p.0| + 1..] == p'.1;
  }

  /** Distinct resource names without separators give distinct scopes, one per entry. */
  lemma ScopesDistinct(permissions: seq<Permission>)
    requires DistinctNames(permissions) && PlainNames(permissions)
    ensures var scopes := Scopes(permissions);
      |scopes| == |permissions|
      && forall i, j :: 0 <= i < j < |scopes| ==> scopes[i] != scopes[j]
  {
    var scopes := Scopes(permissions);
    forall i, j | 0 <= i < j < |scopes|
      ensures scopes[i] != scopes[j]
    {
      if scopes[i] == scopes[j] {
        ScopeInjective(permissions[i], permissions[j]);
        assert false;
      }
    }
  }

  /** A permission map granting `issues: write` and `contents: read` gives exactly those two scopes. */
  lemma TwoPermissionScopes()
    ensures Scopes([("issues", "write"), ("contents", "read")]) == ["issues:write", "contents:read"]
  {
    assert Scope(("issues", "write")) == "issues:write";
    assert Scope(("contents", "read")) == "contents:read";
  }

  // The record store.

  function RecordId(r: Record): nat
  {
    match r
    case AuthenticationRow(a) => a.id
    case IntegrationRow(i) => i.id
  }

  /** Every row's id is below `nextId`. */
  predicate IdsBelow(records: seq<Record>, nextId: nat)
  {
    forall k :: 0 <= k < |records| ==> RecordId(records[k]) < nextId
  }

  /** Ids grow strictly in the order the rows were written, so no two rows share one. */
  predicate IdsIncreasing(records: seq<Record>)
  {
    forall i, j :: 0 <= i < j < |records| ==> RecordId(records[i]) < RecordId(records[j])
  }

  /** Every integration row is backed by an authentication row written before it. */
  predicate AllBacked(records: seq<Record>)
  {
    forall k :: 0 <= k < |records| && records[k].IntegrationRow? ==>
      exists j :: 0 <= j < k && Backs(records[j], records[k].integration)
  }

  /** With distinct ids, the authentication row backing an integration is unique. */
  lemma BackingUnique(records: seq<Record>, b: Integration, i: nat, j: nat)
    requires IdsIncreasing(records)
    requires i < |records| && j < |records|
    requires Backs(records[i], b) && Backs(records[j], b)
    ensures i == j
  {
  }

  /** Appending an authentication row, or an integration row backed by an earlier row, keeps every integration backed. */
  lemma AppendKeepsBacked(records: seq<Record>, r: Record)
    requires AllBacked(records)
    requires r.IntegrationRow? ==> exists j :: 0 <= j < |records| && Backs(records[j], r.integration)
    ensures AllBacked(records + [r])
  {
    var rs := records + [r];
    forall k | 0 <= k < |rs| && rs[k].IntegrationRow?
      ensures exists j :: 0 <= j < k && Backs(rs[j], rs[k].integration)
    {
      if k < |records| {
        var j :| 0 <= j < k && Backs(records[j], records[k].integration);
        assert rs[j] == records[j];
      } else {
        var j :| 0 <= j < |records| && Backs(records[j], r.integration);
        assert rs[j] == records[j];
      }
    }
  }

  /** Persisted rows: the IntegrationAuthentication and Integration tables, in write order. */
  class CredentialStore {
    var records: seq<Record>
    var nextId: nat

    ghost predicate Valid()
      reads this
    {
      IdsBelow(records, nextId) && IdsIncreasing(records) && AllBacked(records)
    }

    constructor ()
      ensures Valid() && records == [] && nextId == 0
    {
      records, nextId := [], 0;
    }

    /** `IntegrationAuthentication.create`: one new row with a fresh id. */
    method CreateAuthentication(service: Service, userId: string, teamId: string, scopes: seq<string>)
      returns (a: Authentication)
      requires Valid()
      modifies this
      ensures Valid()
      ensures a == Authentication(old(nextId), service, userId, teamId, scopes)
      ensures records == old(records) + [AuthenticationRow(a)] && nextId == old(nextId) + 1
    {
      a := Authentication(nextId, service, userId, teamId, scopes);
      AppendKeepsBacked(records, AuthenticationRow(a));
      records := records + [AuthenticationRow(a)];
      nextId := nextId + 1;
    }

    /** `Integration.createWithCtx`: one new row, which must point at an authentication row of the same user and team. */
    method CreateIntegration(
      service: Service, kind: IntegrationType, userId: string, teamId: string,
      authenticationId: nat, settings: Settings)
      returns (i: Integration)
      requires Valid()
      requires exists j :: 0 <= j < |records| && Backs(records[j],
        Integration(nextId, service, kind, userId, teamId, authenticationId, settings))
      modifies this
      ensures Valid()
      ensures i == Integration(old(nextId), service, kind, userId, teamId, authenticationId, settings)
      ensures records == old(records) + [IntegrationRow(i)] && nextId == old(nextId) + 1
    {
      i := Integration(nextId, service, kind, userId, teamId, authenticationId, settings);
      AppendKeepsBacked(records, IntegrationRow(i));
      records := records + [IntegrationRow(i)];
      nextId := nextId + 1;
    }

    /**
     * The `github.callback` handler, step by step with its early returns.
     * Its redirect, the exchange it requests and the rows it appends are those
     * of Handle; the store stays valid.
     */
    method Callback(q: CallbackQuery, user: User, installations: seq<Installation>)
      returns (redirect: Redirect, exchange: Option<Exchange>)
      requires Valid()
      modifies this
      ensures Valid()
      ensures var r := Handle(q, user, installations, old(nextId));
        && redirect == r.redirect && exchange == r.exchange
        && records == old(records) + r.writes
        && nextId == old(nextId) + |r.writes|
    {
      exchange := None;
      if HasError(q) {
        redirect := ErrorUrl(q.error.value);
        return;
      }
      if q.setupAction == Some(Request) {
        redirect := InstallRequestUrl;
        return;
      }
      exchange := Some(Exchange(q.code, q.state));
      var found := FindInstallation(installations, q.installationId);
      if found.None? {
        redirect := ErrorUrl(Unauthenticated);
        return;
      }
      var installation := installations[found.value];
      var scopes := Scopes(installation.permissions);
      var authentication := CreateAuthentication(GitHub, user.id, user.teamId, scopes);
      var settings := Settings(q.installationId.value, Summary(installation.account));
      assert Backs(records[|records| - 1], Integration(nextId, GitHub, Embed, user.id, user.teamId, authentication.id, settings));
      var _ := CreateIntegration(GitHub, Embed, user.id, user.teamId, authentication.id, settings);
      redirect := SuccessUrl;
    }
  }
}
