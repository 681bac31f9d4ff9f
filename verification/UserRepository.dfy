/** The user repository's lookups (their input guards and normalised keys) and
    its cache invalidation: email keys per user and paged organization
    queries per organization. */
module Users {
  import opened Common
  import opened Models

  const EmailKeyPrefix: string := "Email:"
  const PagedOrganizationPrefix: string := "paged:Organization:"
  const EmailAddressField: string := "email_address"

  // ------------------------------------------------------------------
  // Email addresses

  /** `emailAddress.ToLowerInvariant().Trim()`, computed as trim-then-lower
      (the same string, by `LowerThenTrim`). */
  function NormalizeEmail(emailAddress: string): (r: string)
    ensures r == [] <==> IsNullOrWhiteSpace(emailAddress)
    ensures forall i :: 0 <= i < |r| ==> !IsUpper(r[i])
  {
    TrimEmptyIffBlank(emailAddress);
    ToLower(Trim(emailAddress))
  }

  /** Lower-casing first, as the source does, gives the same address. */
  lemma LowerThenTrim(emailAddress: string)
    ensures NormalizeEmail(emailAddress) == Trim(ToLower(emailAddress))
  {
    TrimToLower(emailAddress);
  }

  /** Normalising twice is normalising once. */
  lemma NormalizeEmailIdempotent(emailAddress: string)
    ensures NormalizeEmail(NormalizeEmail(emailAddress)) == NormalizeEmail(emailAddress)
  {
    var t := Trim(emailAddress);
    var n := ToLower(t);
    assert NormalizeEmail(emailAddress) == n;
    TrimToLower(t);
    TrimIdempotent(emailAddress);
    assert Trim(n) == n;
    ToLowerIdempotent(t);
    assert NormalizeEmail(n) == ToLower(Trim(n));
  }

  function EmailCacheKey(emailAddress: string): string {
    EmailKeyPrefix + NormalizeEmail(emailAddress)
  }

  /** What `GetByEmailAddressAsync` searches for: None (no query) for a blank
      address, else the normalised address and the query's cache key. */
  function EmailQuery(emailAddress: string): (r: Option<(string, string)>)
    ensures r.None? <==> IsNullOrWhiteSpace(emailAddress)
    ensures r.Some? ==> r.value.0 == NormalizeEmail(emailAddress) && r.value.1 == EmailKeyPrefix + r.value.0
  {
    if IsNullOrWhiteSpace(emailAddress) then None
    else
      var normalized := NormalizeEmail(emailAddress);
      Some((normalized, EmailKeyPrefix + normalized))
  }

  /** The first stored user satisfying a term filter, `FindOneAsync`'s hit. */
  function FirstWhere(users: seq<User>, matches: User -> bool): (r: Option<User>)
    ensures r.Some? ==> r.value in users && matches(r.value)
    ensures r.None? ==> forall k :: 0 <= k < |users| ==> !matches(users[k])
  {
    if users == [] then None
    else if matches(users[0]) then Some(users[0])
    else FirstWhere(users[1..], matches)
  }

  function GetByEmailAddress(users: seq<User>, emailAddress: string): (r: Option<User>)
    ensures IsNullOrWhiteSpace(emailAddress) ==> r.None?
    ensures r.Some? ==> r.value in users && r.value.emailAddress == NormalizeEmail(emailAddress)
    ensures !IsNullOrWhiteSpace(emailAddress) && r.None? ==>
              forall k :: 0 <= k < |users| ==> users[k].emailAddress != NormalizeEmail(emailAddress)
  {
    match EmailQuery(emailAddress)
    case None => None
    case Some((normalized, _)) => FirstWhere(users, (u: User) => u.emailAddress == normalized)
  }

  /** The cache key a lookup by email uses is the key that invalidating the user
      it found removes, however the address was spelled in the lookup. */
  lemma LookupKeyIsInvalidationKey(users: seq<User>, emailAddress: string)
    requires GetByEmailAddress(users, emailAddress).Some?
    ensures EmailQuery(emailAddress).value.1 == EmailCacheKey(GetByEmailAddress(users, emailAddress).value.emailAddress)
  {
    NormalizeEmailIdempotent(emailAddress);
  }

  /** Addresses that differ only in ASCII case share a key, and so does one
      with white space added at either end. */
  lemma SpellingsShareKey(a: string, b: string, w1: string, w2: string)
    requires EqualsIgnoreCase(a, b)
    requires IsNullOrWhiteSpace(w1) && IsNullOrWhiteSpace(w2)
    ensures EmailCacheKey(w1 + b + w2) == EmailCacheKey(a)
  {
    TrimPadded(w1, b, w2);
    LowerThenTrim(a);
    LowerThenTrim(b);
  }

  // ------------------------------------------------------------------
  // Tokens and OAuth accounts

  function GetByPasswordResetToken(users: seq<User>, token: string): (r: Option<User>)
    ensures token == [] ==> r.None?
    ensures r.Some? ==> r.value in users && r.value.passwordResetToken == token
    ensures token != [] && r.None? ==> forall k :: 0 <= k < |users| ==> users[k].passwordResetToken != token
  {
    if token == [] then None else FirstWhere(users, (u: User) => u.passwordResetToken == token)
  }

  function GetByVerifyEmailAddressToken(users: seq<User>, token: string): (r: Option<User>)
    ensures token == [] ==> r.None?
    ensures r.Some? ==> r.value in users && r.value.verifyEmailAddressToken == token
    ensures token != [] && r.None? ==> forall k :: 0 <= k < |users| ==> users[k].verifyEmailAddressToken != token
  {
    if token == [] then None else FirstWhere(users, (u: User) => u.verifyEmailAddressToken == token)
  }

  predicate HasProviderUserId(u: User, providerUserId: string) {
    exists k :: 0 <= k < |u.oauthAccounts| && u.oauthAccounts[k].providerUserId == providerUserId
  }

  predicate HasProvider(u: User, provider: string) {
    exists k :: 0 <= k < |u.oauthAccounts| && u.oauthAccounts[k].provider == provider
  }

  predicate HasAccount(u: User, provider: string, providerUserId: string) {
    OAuthAccount(provider, providerUserId) in u.oauthAccounts
  }

  function Candidates(users: seq<User>, providerUserId: string): (r: seq<User>)
    ensures forall u :: u in r <==> u in users && HasProviderUserId(u, providerUserId)
  {
    if users == [] then []
    else
      assert forall u :: u in users <==> u == users[0] || u in users[1..];
      (if HasProviderUserId(users[0], providerUserId) then [users[0]] else []) + Candidates(users[1..], providerUserId)
  }

  /** `GetUserByOAuthProviderAsync` as written: the search matches any account
      with the provider user id, and the provider is then checked on any
      account of the user, not necessarily the same one. */
  function GetUserByOAuthProviderAsWritten(users: seq<User>, provider: string, providerUserId: string): (r: Option<User>)
    ensures provider == [] || providerUserId == [] ==> r.None?
    ensures r.Some? ==> r.value in users && HasProviderUserId(r.value, providerUserId)
                        && HasProvider(r.value, ToLower(provider))
  {
    if provider == [] || providerUserId == [] then None
    else
      var p := ToLower(provider);
      FirstWhere(Candidates(users, providerUserId), (u: User) => HasProvider(u, p))
  }

  /** A user with a GitHub account "1" and a Google account "2" is returned for
      the Google account "1", which nobody has. */
  lemma OAuthLookupMixesAccounts()
    ensures var u := User("u", "a@b.c", true, true, [], [OAuthAccount("github", "1"), OAuthAccount("google", "2")], "", "");
            && GetUserByOAuthProviderAsWritten([u], "Google", "1") == Some(u)
            && !HasAccount(u, "google", "1")
  {
    var u := User("u", "a@b.c", true, true, [], [OAuthAccount("github", "1"), OAuthAccount("google", "2")], "", "");
    assert u.oauthAccounts[0].providerUserId == "1";
    assert Candidates([u], "1") == [u];
    ToLowerOfGoogle();
    assert u.oauthAccounts[1].provider == "google";
  }

  lemma ToLowerOfGoogle()
    ensures ToLower("Google") == "google"
  {
    assert ToLower("Google")[0] == 'g';
  }

  /** The lookup with provider and provider user id required of the same
      account. */
  function GetUserByOAuthProvider(users: seq<User>, provider: string, providerUserId: string): (r: Option<User>)
    ensures provider == [] || providerUserId == [] ==> r.None?
    ensures r.Some? ==> r.value in users && HasAccount(r.value, ToLower(provider), providerUserId)
    ensures provider != [] && providerUserId != [] && r.None? ==>
              forall k :: 0 <= k < |users| ==> !HasAccount(users[k], ToLower(provider), providerUserId)
  {
    if provider == [] || providerUserId == [] then None
    else
      var p := ToLower(provider);
      FirstWhere(users, (u: User) => HasAccount(u, p, providerUserId))
  }

  /** Whenever the corrected lookup finds a user, the lookup as written finds a
      user too (possibly an earlier one matching through two accounts). */
  lemma CorrectedLookupRefinesWritten(users: seq<User>, provider: string, providerUserId: string)
    requires GetUserByOAuthProvider(users, provider, providerUserId).Some?
    ensures GetUserByOAuthProviderAsWritten(users, provider, providerUserId).Some?
  {
    var u := GetUserByOAuthProvider(users, provider, providerUserId).value;
    var p := ToLower(provider);
    var k :| 0 <= k < |u.oauthAccounts| && u.oauthAccounts[k] == OAuthAccount(p, providerUserId);
    assert HasProviderUserId(u, providerUserId) && HasProvider(u, p);
    var cs := Candidates(users, providerUserId);
    assert u in cs;
    var j :| 0 <= j < |cs| && cs[j] == u;
  }

  // ------------------------------------------------------------------
  // Organization pages

  datatype SortOrder = Ascending | Descending

  /** The query `GetByOrganizationIdAsync` runs. */
  datatype OrganizationQuery = OrganizationQuery(organizationId: string, sortField: string, order: SortOrder,
                                                 cacheKey: Option<string>)

  function PagedCacheKey(organizationId: string): string {
    PagedOrganizationPrefix + organizationId
  }

  /** None for an empty organization id: the empty result, without a query. */
  function GetByOrganizationId(organizationId: string, useCache: bool): (r: Option<OrganizationQuery>)
    ensures r.None? <==> organizationId == []
    ensures r.Some? ==> r.value.organizationId == organizationId
                        && r.value.sortField == EmailAddressField && r.value.order == Ascending
                        && (r.value.cacheKey.Some? <==> useCache)
                        && (useCache ==> r.value.cacheKey == Some(PagedCacheKey(organizationId)))
  {
    if organizationId == [] then None
    else Some(OrganizationQuery(organizationId, EmailAddressField, Ascending,
                                if useCache then Some(PagedCacheKey(organizationId)) else None))
  }

  /** The prefix removed for an organization: `paged:Organization:{id}:`
      (the trailing `*` is the cache's wildcard). */
  function PagedQueryPrefix(organizationId: string): string {
    PagedOrganizationPrefix + organizationId + ":"
  }

  // ------------------------------------------------------------------
  // Invalidation

  datatype ModifiedUser = ModifiedUser(value: User, original: Option<User>)

  /** `UnionOriginalAndModified`. */
  function OriginalsAndModified(documents: seq<ModifiedUser>): (r: seq<User>)
    ensures forall k :: 0 <= k < |documents| ==> documents[k].value in r
    ensures forall k :: 0 <= k < |documents| && documents[k].original.Some? ==> documents[k].original.value in r
  {
    if documents == [] then []
    else
      var d := documents[0];
      var rest := OriginalsAndModified(documents[1..]);
      assert forall k :: 1 <= k < |documents| ==> documents[k] == documents[1..][k - 1];
      [d.value] + (if d.original.Some? then [d.original.value] else []) + rest
  }

  /** `SelectMany(d => d.OrganizationIds)`. */
  function AllOrganizationIds(users: seq<User>): (r: seq<string>)
    ensures forall id :: id in r <==> exists k :: 0 <= k < |users| && id in users[k].organizationIds
  {
    if users == [] then []
    else
      var rest := AllOrganizationIds(users[1..]);
      assert forall k :: 1 <= k < |users| ==> users[k] == users[1..][k - 1];
      users[0].organizationIds + rest
  }

  /** `Distinct().Where(id => !IsNullOrEmpty(id))`, first occurrences kept. */
  function DistinctNonEmpty(ids: seq<string>, seen: set<string>): (r: seq<string>)
    ensures forall id :: id in r <==> id in ids && id != [] && id !in seen
    ensures forall j, k :: 0 <= j < k < |r| ==> r[j] != r[k]
  {
    if ids == [] then []
    else
      assert forall id :: id in ids <==> id == ids[0] || id in ids[1..];
      var keep := ids[0] != [] && ids[0] !in seen;
      var rest := DistinctNonEmpty(ids[1..], seen + {ids[0]});
      (if keep then [ids[0]] else []) + rest
  }

  /** The organizations whose cached pages a change to `users` makes stale. */
  function StaleOrganizations(users: seq<User>): (r: seq<string>)
    ensures forall id :: id in r <==> id != [] && exists k :: 0 <= k < |users| && id in users[k].organizationIds
  {
    DistinctNonEmpty(AllOrganizationIds(users), {})
  }

  /** A cache key a removal by any of the prefixes of `ids` takes. */
  predicate HasStalePrefix(key: string, ids: seq<string>) {
    exists j :: 0 <= j < |ids| && StartsWith(key, PagedQueryPrefix(ids[j]))
  }

  lemma StalePrefixStep(ids: seq<string>, i: nat)
    requires i < |ids|
    ensures forall key :: HasStalePrefix(key, ids[..i + 1]) <==>
                          HasStalePrefix(key, ids[..i]) || StartsWith(key, PagedQueryPrefix(ids[i]))
  {
    forall key ensures HasStalePrefix(key, ids[..i + 1]) <==>
                       HasStalePrefix(key, ids[..i]) || StartsWith(key, PagedQueryPrefix(ids[i])) {
      if HasStalePrefix(key, ids[..i + 1]) && !StartsWith(key, PagedQueryPrefix(ids[i])) {
        var j :| 0 <= j < i + 1 && StartsWith(key, PagedQueryPrefix(ids[..i + 1][j]));
        assert ids[..i][j] == ids[j];
      }
      if HasStalePrefix(key, ids[..i]) {
        var j :| 0 <= j < i && StartsWith(key, PagedQueryPrefix(ids[..i][j]));
        assert ids[..i + 1][j] == ids[j];
      }
      if StartsWith(key, PagedQueryPrefix(ids[i])) {
        assert ids[..i + 1][i] == ids[i];
      }
    }
  }

  class UserRepository {
    /** The keys held in the cache the repository shares. */
    var cacheKeys: set<string>
    const isCacheEnabled: bool

    constructor (cacheKeys: set<string>, isCacheEnabled: bool)
      ensures this.cacheKeys == cacheKeys && this.isCacheEnabled == isCacheEnabled
    {
      this.cacheKeys := cacheKeys;
      this.isCacheEnabled := isCacheEnabled;
    }

    /** `InvalidateCachedQueriesAsync`: one prefix removal per distinct
        non-empty organization id of the users. */
    method InvalidateCachedQueries(users: seq<User>)
      modifies this
      ensures cacheKeys == set k | k in old(cacheKeys) && !HasStalePrefix(k, StaleOrganizations(users))
    {
      var organizations := StaleOrganizations(users);
      for i := 0 to |organizations|
        invariant cacheKeys == set k | k in old(cacheKeys) && !HasStalePrefix(k, organizations[..i])
      {
        var prefix := PagedQueryPrefix(organizations[i]);
        StalePrefixStep(organizations, i);
        cacheKeys := set k | k in cacheKeys && !StartsWith(k, prefix);
      }
      assert organizations[..|organizations|] == organizations;
    }

    /** `InvalidateCacheAsync`: the email keys of every original and modified
        user, then their organizations' cached pages. */
    method InvalidateCache(documents: seq<ModifiedUser>)
      modifies this
      ensures !isCacheEnabled ==> cacheKeys == old(cacheKeys)
      ensures isCacheEnabled ==>
                var users := OriginalsAndModified(documents);
                cacheKeys == set k | k in old(cacheKeys) && k !in (set u | u in users :: EmailCacheKey(u.emailAddress))
                                     && !HasStalePrefix(k, StaleOrganizations(users))
    {
      if !isCacheEnabled {
        return;
      }
      var users := OriginalsAndModified(documents);
      var keysToRemove := set u | u in users :: EmailCacheKey(u.emailAddress);
      cacheKeys := cacheKeys - keysToRemove;
      InvalidateCachedQueries(users);
    }

    /** `OnDocumentsAdded`. */
    method OnDocumentsAdded(documents: seq<User>)
      modifies this
      ensures !isCacheEnabled ==> cacheKeys == old(cacheKeys)
      ensures isCacheEnabled ==>
                cacheKeys == set k | k in old(cacheKeys) && !HasStalePrefix(k, StaleOrganizations(documents))
    {
      if !isCacheEnabled {
        return;
      }
      InvalidateCachedQueries(documents);
    }
  }

  /** After a user changes, a cached lookup by the user's old address, however
      it was spelled, is gone, and so is every cached page of each of the
      user's old and new organizations. */
  method ChangeClearsLookups(repo: UserRepository, original: User, modified: User, lookup: string,
                             organizationId: string, pageKey: string)
    requires repo.isCacheEnabled
    requires EmailQuery(lookup).Some? && EmailQuery(lookup).value.0 == original.emailAddress
    requires organizationId != [] && (organizationId in original.organizationIds || organizationId in modified.organizationIds)
    requires StartsWith(pageKey, PagedQueryPrefix(organizationId))
    modifies repo
    ensures EmailQuery(lookup).value.1 !in repo.cacheKeys
    ensures pageKey !in repo.cacheKeys
  {
    var documents := [ModifiedUser(modified, Some(original))];
    NormalizeEmailIdempotent(lookup);
    var users := OriginalsAndModified(documents);
    assert original in users && modified in users;
    assert EmailQuery(lookup).value.1 == EmailCacheKey(original.emailAddress);
    var stale := StaleOrganizations(users);
    assert organizationId in stale;
    var j :| 0 <= j < |stale| && stale[j] == organizationId;
    assert HasStalePrefix(pageKey, stale);
    repo.InvalidateCache(documents);
  }
}
