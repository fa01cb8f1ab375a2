/** The one-shot login transaction and the browser session: two surfaces of one application
    over one key-value store (the authorization code flow of section 4.1 of RFC 6749 with the
    proof key of section 4.2 of RFC 7636). */
module Login {
  import opened Wrappers
  import opened Clock

  datatype Surface = Admin | Web

  // ----- Keys -----

  datatype Kind = SessionKind | TransactionKind

  function SurfaceName(s: Surface): string {
    match s
    case Admin => "admin"
    case Web => "web"
  }

  function KindName(k: Kind): string {
    match k
    case SessionKind => ":session:"
    case TransactionKind => ":oidc:"
  }

  /** `{surface}:session:{id}` or `{surface}:oidc:{id}` */
  function Suffix(s: Surface, k: Kind, id: string): string {
    SurfaceName(s) + (KindName(k) + id)
  }

  /** The key of an entry: `{slug}:auth:` and the suffix. */
  function Key(slug: string, s: Surface, k: Kind, id: string): string {
    (slug + ":auth:") + Suffix(s, k, id)
  }

  lemma CancelPrefix(a: string, x: string, y: string)
    requires a + x == a + y
    ensures x == y
  {
    assert (a + x)[|a|..] == x && (a + y)[|a|..] == y;
  }

  lemma SurfacesDiffer(s: Surface, x: string, s': Surface, x': string)
    requires SurfaceName(s) + x == SurfaceName(s') + x'
    ensures s == s' && x == x'
  {
    assert (SurfaceName(s) + x)[0] == SurfaceName(s)[0];
    assert (SurfaceName(s') + x')[0] == SurfaceName(s')[0];
    CancelPrefix(SurfaceName(s), x, x');
  }

  lemma KindsDiffer(k: Kind, x: string, k': Kind, x': string)
    requires KindName(k) + x == KindName(k') + x'
    ensures k == k' && x == x'
  {
    assert (KindName(k) + x)[1] == KindName(k)[1];
    assert (KindName(k') + x')[1] == KindName(k')[1];
    CancelPrefix(KindName(k), x, x');
  }

  /** Whatever identifiers callers supply, two keys are equal only for the same surface, the
      same kind and the same identifier. */
  lemma KeysDoNotCollide(slug: string, s: Surface, k: Kind, id: string, s': Surface, k': Kind, id': string)
    ensures Key(slug, s, k, id) == Key(slug, s', k', id') <==> s == s' && k == k' && id == id'
  {
    if Key(slug, s, k, id) == Key(slug, s', k', id') {
      CancelPrefix(slug + ":auth:", Suffix(s, k, id), Suffix(s', k', id'));
      SurfacesDiffer(s, KindName(k) + id, s', KindName(k') + id');
      KindsDiffer(k, id, k', id');
    }
  }

  // ----- Entries -----

  /** What begin_login stores; state, nonce and verifier are secrets drawn there. */
  datatype Transaction = Transaction(surface: Surface, state: string, nonce: string, verifier: string)

  /** The checked part of a stored browser session.  Expiry is in whole seconds. */
  datatype BrowserSession = BrowserSession(
    app: string,
    surface: Surface,
    audience: string,
    policyVersion: string,
    subject: string,
    expiresAt: int,
    csrfToken: string)

  datatype Entry = Waiting(transaction: Transaction) | Browser(session: BrowserSession)

  type Store = map<string, Entry>

  datatype Profile = Profile(clientId: string, policyVersion: string, organizations: set<string>)

  datatype Config = Config(slug: string, sessionTtl: int, admin: Profile, web: Profile)

  function ProfileOf(c: Config, s: Surface): Profile {
    match s
    case Admin => c.admin
    case Web => c.web
  }

  /** The verified claims the provider answers a code with; `organization` is absent when the
      claim is missing or not a string. */
  datatype Claims = Claims(subject: string, expiresAt: int, organization: Option<string>)

  datatype AuthError = TransactionInvalid | ExchangeFailed | TokenInvalid | OrganizationNotAllowed | SessionNotCreated

  function TransactionKey(c: Config, s: Surface, id: string): string {
    Key(c.slug, s, TransactionKind, id)
  }

  function SessionKey(c: Config, s: Surface, id: string): string {
    Key(c.slug, s, SessionKind, id)
  }

  predicate ValidMode(s: Surface, mode: string) {
    mode == "login" || (mode == "signup" && s == Web)
  }

  predicate ValidId(id: Option<string>) {
    id.Some? && 1 <= |id.value| <= 256
  }

  // ----- The operations on values -----

  function BeginLogin(c: Config, st: Store, mode: string, id: string, t: Transaction): Result<Store, AuthError> {
    var key := TransactionKey(c, t.surface, id);
    if !ValidMode(t.surface, mode) || key in st then Failure(TransactionInvalid)
    else Success(st[key := Waiting(t)])
  }

  predicate Answers(e: Entry, s: Surface, state: string) {
    e.Waiting? && e.transaction.surface == s && e.transaction.state == state
  }

  /** The first half of complete_login: the transaction leaves the store whether or not it
      passes the checks. */
  function TakeTransaction(c: Config, st: Store, s: Surface, id: Option<string>, state: string): (Store,
                           Result<Transaction, AuthError>) {
    if !ValidId(id) || TransactionKey(c, s, id.value) !in st then (st, Failure(TransactionInvalid)) else
      var key := TransactionKey(c, s, id.value);
      (st - {key}, if Answers(st[key], s, state) then Success(st[key].transaction) else Failure(TransactionInvalid))
  }

  function Min(a: int, b: int): int {
    if a < b then a else b
  }

  function Expiry(c: Config, claims: Claims, now: nat): int {
    Min(claims.expiresAt, now / SECOND + c.sessionTtl)
  }

  function SessionOf(c: Config, s: Surface, csrf: string, claims: Claims, now: nat): BrowserSession {
    var profile := ProfileOf(c, s);
    BrowserSession(c.slug, s, profile.clientId, profile.policyVersion, claims.subject, Expiry(c, claims, now), csrf)
  }

  /** The second half, after the code was exchanged for claims. */
  function CreateSession(c: Config, st: Store, s: Surface, id: string, csrf: string, claims: Claims, now: nat)
    : Result<Store, AuthError>
  {
    if Expiry(c, claims, now) <= now / SECOND then Failure(TokenInvalid)
    else if claims.organization.None? || claims.organization.value !in ProfileOf(c, s).organizations then
      Failure(OrganizationNotAllowed)
    else if SessionKey(c, s, id) in st then Failure(SessionNotCreated)
    else Success(st[SessionKey(c, s, id) := Browser(SessionOf(c, s, csrf, claims, now))])
  }

  predicate Accepts(c: Config, e: Entry, s: Surface, now: nat) {
    && e.Browser? && e.session.expiresAt * SECOND > now
    && e.session.app == c.slug && e.session.surface == s
    && e.session.audience == ProfileOf(c, s).clientId && e.session.policyVersion == ProfileOf(c, s).policyVersion
  }

  /** A session is returned only while it is this surface's and unexpired; otherwise it is
      deleted. */
  function GetSession(c: Config, st: Store, s: Surface, id: Option<string>, now: nat): (Store, Option<BrowserSession>) {
    if !ValidId(id) || SessionKey(c, s, id.value) !in st then (st, None) else
      var key := SessionKey(c, s, id.value);
      if Accepts(c, st[key], s, now) then (st, Some(st[key].session)) else (st - {key}, None)
  }

  function DeleteSession(c: Config, st: Store, s: Surface, id: Option<string>): Store {
    if ValidId(id) then st - {SessionKey(c, s, id.value)} else st
  }

  function CancelLogin(c: Config, st: Store, s: Surface, id: Option<string>): Store {
    if ValidId(id) then st - {TransactionKey(c, s, id.value)} else st
  }
}
