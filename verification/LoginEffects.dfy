/** What each login operation does to the store: when it succeeds, the entry it writes or takes
    away, field by field, and that it touches nothing else. */
module LoginEffects {
  import opened Wrappers
  import opened Login

  /** The key prefixes, spelled out. */
  lemma KeyFormat(c: Config, id: string)
    ensures SessionKey(c, Admin, id) == c.slug + ":auth:admin:session:" + id
    ensures SessionKey(c, Web, id) == c.slug + ":auth:web:session:" + id
    ensures TransactionKey(c, Admin, id) == c.slug + ":auth:admin:oidc:" + id
    ensures TransactionKey(c, Web, id) == c.slug + ":auth:web:oidc:" + id
  {
    assert ":auth:" + "admin" + ":session:" == ":auth:admin:session:";
    assert ":auth:" + "web" + ":session:" == ":auth:web:session:";
    assert ":auth:" + "admin" + ":oidc:" == ":auth:admin:oidc:";
    assert ":auth:" + "web" + ":oidc:" == ":auth:web:oidc:";
    Regroup(c.slug, ":auth:", "admin", ":session:", id);
    Regroup(c.slug, ":auth:", "web", ":session:", id);
    Regroup(c.slug, ":auth:", "admin", ":oidc:", id);
    Regroup(c.slug, ":auth:", "web", ":oidc:", id);
  }

  lemma Regroup(a: string, b: string, c: string, d: string, e: string)
    ensures (a + b) + (c + (d + e)) == a + (b + c + d) + e
  {
  }

  /** A begun login waits under a new key; signup is for the web surface only. */
  lemma BeginEffect(c: Config, st: Store, mode: string, id: string, t: Transaction)
    ensures var key := TransactionKey(c, t.surface, id);
            var allowed := mode == "login" || (mode == "signup" && t.surface == Web);
            match BeginLogin(c, st, mode, id, t)
            case Failure(e) => e == TransactionInvalid && (!allowed || key in st)
            case Success(st') => allowed && key !in st && st' == st[key := Waiting(t)]
  {
  }

  predicate Usable(cookie: Option<string>) {
    match cookie
    case None => false
    case Some(id) => 0 < |id| && |id| <= 256
  }

  /** Whatever waits under a usable cookie is gone afterwards; it is handed out exactly if it is
      this surface's and the state is its own. */
  lemma TakeEffect(c: Config, st: Store, s: Surface, cookie: Option<string>, state: string)
    ensures var (st', r) := TakeTransaction(c, st, s, cookie, state);
            if Usable(cookie) && TransactionKey(c, s, cookie.value) in st then
              var key := TransactionKey(c, s, cookie.value);
              && key !in st' && st' == st - {key}
              && match st[key]
                 case Waiting(t) =>
                   if t.surface == s && t.state == state then r == Success(t) else r == Failure(TransactionInvalid)
                 case Browser(_) => r == Failure(TransactionInvalid)
            else st' == st && r == Failure(TransactionInvalid)
  {
  }

  /** The expiry a new session gets, in whole seconds. */
  function Until(c: Config, claims: Claims, now: nat): int {
    if claims.expiresAt <= now / 1_000_000 + c.sessionTtl then claims.expiresAt else now / 1_000_000 + c.sessionTtl
  }

  function Settings(c: Config, s: Surface): Profile {
    if s == Admin then c.admin else c.web
  }

  /** A session is stored exactly if it has time left, the organization is allowed and the key
      is free; every checked field of it is fixed. */
  lemma CreateEffect(c: Config, st: Store, s: Surface, id: string, csrf: string, claims: Claims, now: nat)
    ensures var key := SessionKey(c, s, id);
            var member := claims.organization.Some? && claims.organization.value in Settings(c, s).organizations;
            match CreateSession(c, st, s, id, csrf, claims, now)
            case Failure(e) =>
              if Until(c, claims, now) <= now / 1_000_000 then e == TokenInvalid
              else if !member then e == OrganizationNotAllowed
              else key in st && e == SessionNotCreated
            case Success(st') =>
              && Until(c, claims, now) > now / 1_000_000 && member && key !in st
              && key in st' && st' == st[key := st'[key]]
              && match st'[key]
                 case Waiting(_) => false
                 case Browser(b) =>
                   && b.app == c.slug && b.surface == s
                   && b.audience == Settings(c, s).clientId && b.policyVersion == Settings(c, s).policyVersion
                   && b.subject == claims.subject && b.csrfToken == csrf && b.expiresAt == Until(c, claims, now)
  {
  }

  /** A read answers exactly with an unexpired session of this app, surface, client and policy
      version; anything else under the key is removed. */
  lemma GetEffect(c: Config, st: Store, s: Surface, cookie: Option<string>, now: nat)
    ensures var (st', r) := GetSession(c, st, s, cookie, now);
            if Usable(cookie) && SessionKey(c, s, cookie.value) in st then
              var key := SessionKey(c, s, cookie.value);
              match st[key]
              case Waiting(_) => st' == st - {key} && r == None
              case Browser(b) =>
                if now < b.expiresAt * 1_000_000 && b.app == c.slug && b.surface == s
                   && b.audience == Settings(c, s).clientId && b.policyVersion == Settings(c, s).policyVersion
                then st' == st && r == Some(b)
                else st' == st - {key} && r == None
            else st' == st && r == None
  {
  }

  /** Logout and cancellation remove exactly their entry. */
  lemma RemoveEffect(c: Config, st: Store, s: Surface, cookie: Option<string>)
    ensures DeleteSession(c, st, s, cookie) == if Usable(cookie) then st - {SessionKey(c, s, cookie.value)} else st
    ensures CancelLogin(c, st, s, cookie) == if Usable(cookie) then st - {TransactionKey(c, s, cookie.value)} else st
    ensures Usable(cookie) ==> SessionKey(c, s, cookie.value) !in DeleteSession(c, st, s, cookie)
    ensures Usable(cookie) ==> TransactionKey(c, s, cookie.value) !in CancelLogin(c, st, s, cookie)
  {
  }
}
