/** The authentication callbacks (lib/auth.ts): where to send the browser after
    sign-in, the placeholder email for providers that send none, the provider
    patch applied to the user table, and how a session and a token are filled. */
module Auth {
  import opened Wrappers
  import opened Text
  import opened Query
  import opened Store

  // ---------------------------------------------------------------- redirect

  /** `redirect`: a relative path is joined to the site, an absolute URL on the
      site's own origin is kept, anything else goes to the site's root. `origin`
      stands for `new URL(url).origin`; None is a URL it cannot parse, which throws. */
  function Redirect(url: string, baseUrl: string, origin: string -> Option<string>): (r: Option<string>)
    ensures StartsWith(url, "/") ==> r == Some(baseUrl + url)
    ensures !StartsWith(url, "/") && origin(url).None? ==> r.None?
    ensures !StartsWith(url, "/") && origin(url) == Some(baseUrl) ==> r == Some(url)
    ensures !StartsWith(url, "/") && origin(url).Some? && origin(url) != Some(baseUrl) ==> r == Some(baseUrl)
  {
    if StartsWith(url, "/") then Some(baseUrl + url)
    else if origin(url).None? then None
    else if origin(url).value == baseUrl then Some(url)
    else Some(baseUrl)
  }

  /** The browser never leaves the site: the target is under `baseUrl`, or is a URL
      whose origin is `baseUrl`. */
  lemma RedirectStaysOnSite(url: string, baseUrl: string, origin: string -> Option<string>)
    ensures var r := Redirect(url, baseUrl, origin);
      r.Some? ==> StartsWith(r.value, baseUrl) || origin(r.value) == Some(baseUrl)
  {
    var r := Redirect(url, baseUrl, origin);
    if r.Some? && r.value != url {
      assert (baseUrl + url)[..|baseUrl|] == baseUrl;
      assert baseUrl[..|baseUrl|] == baseUrl;
    }
  }

  // ----------------------------------------------------------- email synthesis

  /** The placeholder `{provider}_{providerAccountId}@{provider}.local`. */
  function SynthesizedEmail(provider: string, accountId: string): (e: string)
    ensures |e| == 2 * |provider| + |accountId| + 8
    ensures StartsWith(e, provider + "_")
  {
    var e := provider + "_" + accountId + "@" + provider + ".local";
    assert e[..|provider + "_"|] == provider + "_";
    e
  }

  /** Reads the account id back out of a placeholder email, given the provider. */
  function AccountIdOf(email: string, provider: string): string {
    if |email| < 2 * |provider| + 8 then "" else email[|provider| + 1 .. |email| - |provider| - 7]
  }

  lemma AccountIdRoundTrip(provider: string, accountId: string)
    ensures AccountIdOf(SynthesizedEmail(provider, accountId), provider) == accountId
  {
    var e := SynthesizedEmail(provider, accountId);
    assert e == provider + "_" + accountId + "@" + provider + ".local";
    assert e[|provider| + 1 .. |e| - |provider| - 7] == accountId;
  }

  /** For provider names without `_` (`google`, `kakao`), distinct identities get
      distinct placeholders: the email determines the provider and the account id. */
  lemma SynthesizedEmailInjective(p1: string, a1: string, p2: string, a2: string)
    requires '_' !in p1 && '_' !in p2
    requires SynthesizedEmail(p1, a1) == SynthesizedEmail(p2, a2)
    ensures p1 == p2 && a1 == a2
  {
    var e := SynthesizedEmail(p1, a1);
    assert e == p1 + "_" + a1 + "@" + p1 + ".local";
    assert e == p2 + "_" + a2 + "@" + p2 + ".local";
    assert e[|p1|] == '_' && e[|p2|] == '_';
    assert |p1| == |p2|;
    assert p1 == e[..|p1|] == p2;
    AccountIdRoundTrip(p1, a1);
    AccountIdRoundTrip(p2, a2);
  }

  /** With `_` allowed in a provider name, two identities can share a placeholder. */
  lemma SynthesizedEmailCollidesForUnderscoreProviders()
    ensures SynthesizedEmail("a", "@a_x@a_") == SynthesizedEmail("a_@a", "x")
  {
  }

  /** An OAuth account as the `signIn` callback receives it. */
  datatype OAuthAccount = OAuthAccount(provider: string, providerAccountId: string)

  /** The email `signIn` leaves on the user: kept when present, otherwise the
      placeholder when the account carries both a provider and an account id. */
  function EnsureEmail(email: Option<string>, account: OAuthAccount): (r: Option<string>)
    ensures Truthy(email) ==> r == email
    ensures !Truthy(email) && account.provider != "" && account.providerAccountId != "" ==>
      r == Some(SynthesizedEmail(account.provider, account.providerAccountId))
    ensures !Truthy(email) && (account.provider == "" || account.providerAccountId == "") ==> r == email
  {
    if !Truthy(email) && account.provider != "" && account.providerAccountId != "" then
      Some(SynthesizedEmail(account.provider, account.providerAccountId))
    else email
  }

  /** After `signIn` the user has an email whenever the account names its identity,
      and signing in again changes nothing more. */
  lemma EnsureEmailSettles(email: Option<string>, account: OAuthAccount)
    requires account.provider != "" && account.providerAccountId != ""
    ensures Truthy(EnsureEmail(email, account))
    ensures EnsureEmail(EnsureEmail(email, account), account) == EnsureEmail(email, account)
  {
    var e := SynthesizedEmail(account.provider, account.providerAccountId);
    assert |e| > 0;
  }

  // ------------------------------------------------------------ provider patch

  /** The `data` of the `updateMany`; a None name or avatar is `undefined`, which
      leaves the column as it is. */
  datatype ProviderPatch = ProviderPatch(provider: string, providerId: string, name: Option<string>, avatar: Option<string>)

  /** The patch built from the sign-in payload: `user.name || undefined`,
      `user.image || undefined`. */
  function PatchOf(name: Option<string>, image: Option<string>, account: OAuthAccount): (p: ProviderPatch)
    ensures p.provider == account.provider && p.providerId == account.providerAccountId
    ensures p.name.Some? <==> Truthy(name)
    ensures p.avatar.Some? <==> Truthy(image)
    ensures p.name.Some? ==> p.name == name
    ensures p.avatar.Some? ==> p.avatar == image
  {
    ProviderPatch(account.provider, account.providerAccountId, OrNull(name), OrNull(image))
  }

  /** One row after the patch keyed by `email`. */
  function PatchRow(u: User, email: string, p: ProviderPatch): (r: User)
    ensures r.id == u.id && r.email == u.email && r.role == u.role && r.createdAt == u.createdAt
    ensures u.email != email ==> r == u
    ensures u.email == email ==>
      && r.provider == Some(p.provider) && r.providerId == Some(p.providerId)
      && r.name == (if p.name.Some? then p.name else u.name)
      && r.avatar == (if p.avatar.Some? then p.avatar else u.avatar)
      && r.updatedAt == u.updatedAt
  {
    if u.email != email then u
    else u.(
      provider := Some(p.provider),
      providerId := Some(p.providerId),
      name := if p.name.Some? then p.name else u.name,
      avatar := if p.avatar.Some? then p.avatar else u.avatar)
  }

  function PatchRows(rows: seq<User>, email: string, p: ProviderPatch): (r: seq<User>)
    ensures |r| == |rows|
    ensures forall i :: 0 <= i < |rows| ==> r[i] == PatchRow(rows[i], email, p)
  {
    seq(|rows|, i requires 0 <= i < |rows| => PatchRow(rows[i], email, p))
  }

  /** Applying the same patch twice is applying it once. */
  lemma PatchIdempotent(rows: seq<User>, email: string, p: ProviderPatch)
    ensures PatchRows(PatchRows(rows, email, p), email, p) == PatchRows(rows, email, p)
  {
    var once := PatchRows(rows, email, p);
    var twice := PatchRows(once, email, p);
    forall i | 0 <= i < |rows| ensures twice[i] == once[i] {
      assert twice[i] == PatchRow(once[i], email, p);
    }
  }

  function EmailIs(email: string): User -> bool {
    (u: User) => u.email == email
  }

  /** The table's keys: ids and emails are unique. */
  predicate UniqueKeys(rows: seq<User>) {
    && (forall i, j :: 0 <= i < j < |rows| ==> rows[i].id != rows[j].id)
    && (forall i, j :: 0 <= i < j < |rows| ==> rows[i].email != rows[j].email)
  }

  /** The patch never touches a key, so a table with unique keys keeps them. */
  lemma PatchKeepsKeys(rows: seq<User>, email: string, p: ProviderPatch)
    requires UniqueKeys(rows)
    ensures UniqueKeys(PatchRows(rows, email, p))
    ensures Map(PatchRows(rows, email, p), (u: User) => u.email) == Map(rows, (u: User) => u.email)
  {
    var r := PatchRows(rows, email, p);
    forall i | 0 <= i < |rows| ensures r[i].id == rows[i].id && r[i].email == rows[i].email {
      assert r[i] == PatchRow(rows[i], email, p);
    }
  }

  /** With unique emails the patch reaches at most one user. */
  lemma {:induction false} UniqueEmailMatchesAtMostOne(rows: seq<User>, email: string)
    requires forall i, j :: 0 <= i < j < |rows| ==> rows[i].email != rows[j].email
    ensures Count(rows, EmailIs(email)) <= 1
    decreases |rows|
  {
    if |rows| > 0 {
      UniqueEmailMatchesAtMostOne(rows[1..], email);
      if rows[0].email == email {
        assert forall i :: 0 <= i < |rows[1..]| ==> !EmailIs(email)(rows[1..][i]) by {
          forall i | 0 <= i < |rows[1..]| ensures !EmailIs(email)(rows[1..][i]) {
            assert rows[1..][i] == rows[i + 1];
          }
        }
        CountZeroIffNone(rows[1..], EmailIs(email));
      }
    }
  }

  /** The user table, updated in place. */
  class UserTable {
    var rows: seq<User>

    constructor(rows: seq<User>)
      ensures this.rows == rows
    {
      this.rows := rows;
    }

    /** `updateMany({ where: { email }, data })`: every row with that email is
        patched, the others are left alone, and the number patched is returned. */
    method UpdateMany(email: string, p: ProviderPatch) returns (count: nat)
      modifies this
      ensures rows == PatchRows(old(rows), email, p)
      ensures count == Count(old(rows), EmailIs(email))
    {
      var start := rows;
      var patched := start;
      var i := 0;
      count := 0;
      while i < |start|
        invariant 0 <= i <= |start| && |patched| == |start|
        invariant forall k :: 0 <= k < i ==> patched[k] == PatchRow(start[k], email, p)
        invariant forall k :: i <= k < |start| ==> patched[k] == start[k]
        invariant count == Count(start[..i], EmailIs(email))
      {
        CountPrefixStep(start, i, EmailIs(email));
        if start[i].email == email {
          patched := patched[i := PatchRow(start[i], email, p)];
          count := count + 1;
        }
        i := i + 1;
      }
      assert count == Count(start, EmailIs(email)) by {
        assert start[..i] == start;
      }
      rows := patched;
    }
  }

  // ----------------------------------------------------------------- signIn

  /** The `user` object `signIn` receives; the callback may set its email. */
  class AuthUser {
    var id: string
    var email: Option<string>
    var name: Option<string>
    var image: Option<string>

    constructor(id: string, email: Option<string>, name: Option<string>, image: Option<string>)
      ensures this.id == id && this.email == email && this.name == name && this.image == image
    {
      this.id := id;
      this.email := email;
      this.name := name;
      this.image := image;
    }
  }

  /** `signIn`, with the deferred patch taken as one atomic step after the callback.
      `patchSucceeds` is false when that update throws, which is swallowed. */
  method SignIn(user: AuthUser?, account: Option<OAuthAccount>, table: UserTable, patchSucceeds: bool)
    returns (ok: bool)
    modifies user, table
    ensures ok
    ensures user != null ==> user.id == old(user.id) && user.name == old(user.name) && user.image == old(user.image)
    ensures user != null && account.Some? ==> user.email == EnsureEmail(old(user.email), account.value)
    ensures user != null && account.None? ==> user.email == old(user.email)
    ensures table.rows ==
      if user != null && account.Some? && Truthy(user.email) && patchSucceeds
      then PatchRows(old(table.rows), user.email.value, PatchOf(user.name, user.image, account.value))
      else old(table.rows)
  {
    if account.Some? && user != null {
      var acct := account.value;
      if !Truthy(user.email) && acct.provider != "" && acct.providerAccountId != "" {
        user.email := Some(SynthesizedEmail(acct.provider, acct.providerAccountId));
      }
      if Truthy(user.email) && patchSucceeds {
        var _ := table.UpdateMany(user.email.value, PatchOf(user.name, user.image, acct));
      }
      return true;
    }
    return true;
  }

  // ---------------------------------------------------------------- session

  /** `session.user`, whose fields the callback overwrites one by one. */
  class SessionUser {
    var id: Option<string>
    var name: Option<string>
    var email: Option<string>
    var image: Option<string>
    var role: Option<Role>

    constructor(name: Option<string>, email: Option<string>, image: Option<string>)
      ensures this.id.None? && this.role.None?
      ensures this.name == name && this.email == email && this.image == image
    {
      id := None;
      role := None;
      this.name := name;
      this.email := email;
      this.image := image;
    }
  }

  /** `session`: with a session user and an adapter user (`userId`), the fields are
      copied from that user's row; an empty name or avatar becomes null. Without
      either, or without a row, the session is left as it was. */
  method Session(su: SessionUser?, userId: Option<string>, users: seq<User>)
    modifies su
    ensures su != null && userId.Some? && FindById(users, userId.value).Some? ==>
      var u := FindById(users, userId.value).value;
      && su.id == Some(u.id)
      && su.name == OrNull(u.name)
      && su.email == Some(u.email)
      && su.image == OrNull(u.avatar)
      && su.role == Some(u.role)
    ensures su != null && !(userId.Some? && FindById(users, userId.value).Some?) ==>
      su.id == old(su.id) && su.name == old(su.name) && su.email == old(su.email)
      && su.image == old(su.image) && su.role == old(su.role)
  {
    if su != null && userId.Some? {
      var dbUser := FindById(users, userId.value);
      if dbUser.Some? {
        var u := dbUser.value;
        su.id := Some(u.id);
        su.name := OrNull(u.name);
        su.email := Some(u.email);
        su.image := OrNull(u.avatar);
        su.role := Some(u.role);
      }
    }
  }

  // -------------------------------------------------------------------- jwt

  /** A token: its `id` claim and the claims next-auth puts in it. */
  datatype Token = Token(id: Option<string>, claims: map<string, string>)

  /** `jwt`: a signing-in user's id is written to the token; later calls, which get
      no user, return the token as it is. */
  function Jwt(token: Token, userId: Option<string>): (r: Token)
    ensures r.claims == token.claims
    ensures userId.Some? ==> r.id == userId
    ensures userId.None? ==> r == token
  {
    if userId.Some? then token.(id := userId) else token
  }

  /** The id written at sign-in survives the next refresh, and signing in again
      with the same id changes nothing. */
  lemma JwtKeepsId(token: Token, userId: string)
    ensures Jwt(Jwt(token, Some(userId)), None).id == Some(userId)
    ensures Jwt(Jwt(token, Some(userId)), Some(userId)) == Jwt(token, Some(userId))
  {
  }
}
