/** Runs of the login protocol: both surfaces, any number of browsers, and a store that may
    drop any entry at any time, interleaved in any order. */
module Sessions {
  import opened Wrappers
  import opened Clock
  import opened Login
  import opened LoginEffects

  type Pid = nat  // one call of complete_login

  /** A call of complete_login that has passed the transaction checks. */
  datatype Exchange = Exchange(surface: Surface, presented: string, transaction: Transaction, serial: nat)

  /** A session that was created. */
  datatype Created = Created(exchange: Exchange, id: string, claims: Claims, loginAt: nat, session: BrowserSession)

  /** `begun` every stored login transaction, numbered by its place; `origin` the number of
      the last transaction stored at a key, `taken` the numbers of the transactions that
      callbacks took with their state, in order, whatever became of those logins. */
  datatype World = World(
    store: Store,
    begun: seq<Transaction>,
    origin: map<string, nat>,
    exchanging: map<Pid, Exchange>,
    created: seq<Created>,
    taken: seq<nat>)

  const START := World(map[], [], map[], map[], [], [])

  /** ExpireStep is the store's own time limit, or the clean-up of a failed begin. */
  datatype Step =
    | BeginStep(mode: string, id: string, transaction: Transaction)
    | TakeStep(pid: Pid, surface: Surface, cookie: Option<string>, state: string)
    | CreateStep(pid: Pid, id: string, csrf: string, claims: Claims, now: nat)
    | AbandonStep(pid: Pid)
    | GetStep(surface: Surface, cookie: Option<string>, now: nat)
    | DeleteStep(surface: Surface, cookie: Option<string>)
    | CancelStep(surface: Surface, cookie: Option<string>)
    | ExpireStep(key: string)

  function BeginWorld(c: Config, w: World, mode: string, id: string, t: Transaction): World {
    match BeginLogin(c, w.store, mode, id, t)
    case Failure(_) => w
    case Success(st) =>
      w.(store := st, begun := w.begun + [t], origin := w.origin[TransactionKey(c, t.surface, id) := |w.begun|])
  }

  function TakeWorld(c: Config, w: World, pid: Pid, s: Surface, cookie: Option<string>, state: string): World {
    if pid in w.exchanging then w else
      match TakeTransaction(c, w.store, s, cookie, state)
      case (st, Failure(_)) => w.(store := st)
      case (st, Success(t)) =>
        var key := TransactionKey(c, s, cookie.value);
        var serial := if key in w.origin then w.origin[key] else 0;
        w.(store := st,
           exchanging := w.exchanging[pid := Exchange(s, state, t, serial)],
           taken := w.taken + [serial])
  }

  function CreateWorld(c: Config, w: World, pid: Pid, id: string, csrf: string, claims: Claims, now: nat): World {
    if pid !in w.exchanging then w else
      var x := w.exchanging[pid];
      var w' := w.(exchanging := w.exchanging - {pid});
      match CreateSession(c, w.store, x.surface, id, csrf, claims, now)
      case Failure(_) => w'
      case Success(st) =>
        w'.(store := st, created := w.created + [Created(x, id, claims, now, SessionOf(c, x.surface, csrf, claims, now))])
  }

  function Apply(c: Config, w: World, s: Step): World {
    match s
    case BeginStep(mode, id, t) => BeginWorld(c, w, mode, id, t)
    case TakeStep(pid, surface, cookie, state) => TakeWorld(c, w, pid, surface, cookie, state)
    case CreateStep(pid, id, csrf, claims, now) => CreateWorld(c, w, pid, id, csrf, claims, now)
    case AbandonStep(pid) => w.(exchanging := w.exchanging - {pid})
    case GetStep(surface, cookie, now) => w.(store := GetSession(c, w.store, surface, cookie, now).0)
    case DeleteStep(surface, cookie) => w.(store := DeleteSession(c, w.store, surface, cookie))
    case CancelStep(surface, cookie) => w.(store := CancelLogin(c, w.store, surface, cookie))
    case ExpireStep(key) => w.(store := w.store - {key})
  }

  function Run(c: Config, w: World, steps: seq<Step>): World {
    if steps == [] then w else Apply(c, Run(c, w, steps[..|steps| - 1]), steps[|steps| - 1])
  }

  // ----- What every run keeps -----

  predicate IsLive(w: World, key: string) {
    key in w.store && w.store[key].Waiting?
  }

  /** A login in progress came from the transaction its number names, and presented its
      state on its surface. */
  predicate Honest(begun: seq<Transaction>, x: Exchange) {
    x.serial < |begun| && begun[x.serial] == x.transaction
    && x.transaction.surface == x.surface && x.transaction.state == x.presented
  }

  predicate Allowed(c: Config, s: Surface, claims: Claims) {
    claims.organization.Some? && claims.organization.value in ProfileOf(c, s).organizations
  }

  /** The bounds of a created session. */
  predicate Bounded(c: Config, k: Created) {
    && k.session.surface == k.exchange.surface && Allowed(c, k.exchange.surface, k.claims)
    && k.session.expiresAt * SECOND <= k.claims.expiresAt * SECOND
    && k.session.expiresAt * SECOND <= k.loginAt + c.sessionTtl * SECOND
    && k.loginAt < k.session.expiresAt * SECOND
  }

  /** The transaction waiting at a key is the one its number names, under a key of its
      surface. */
  ghost predicate StoredTransaction(c: Config, w: World, key: string, t: Transaction) {
    && key in w.origin && w.origin[key] < |w.begun| && w.begun[w.origin[key]] == t
    && exists id :: key == TransactionKey(c, t.surface, id)
  }

  predicate CreatedAt(c: Config, k: Created, key: string, b: BrowserSession) {
    k.session == b && key == SessionKey(c, k.exchange.surface, k.id)
  }

  /** A stored session is one that was created, under the key it was created at. */
  ghost predicate StoredSession(c: Config, w: World, key: string, b: BrowserSession) {
    exists i | 0 <= i < |w.created| :: CreatedAt(c, w.created[i], key, b)
  }

  ghost predicate Stored(c: Config, w: World, key: string, e: Entry) {
    match e
    case Waiting(t) => StoredTransaction(c, w, key, t)
    case Browser(b) => StoredSession(c, w, key, b)
  }

  ghost predicate StoreInv(c: Config, w: World) {
    forall key | key in w.store :: Stored(c, w, key, w.store[key])
  }

  ghost predicate HistoryInv(c: Config, w: World) {
    && (forall pid | pid in w.exchanging :: Honest(w.begun, w.exchanging[pid]))
    && (forall i | 0 <= i < |w.created| :: Honest(w.begun, w.created[i].exchange) && Bounded(c, w.created[i]))
  }

  /** The number of the transaction waiting at a key. */
  predicate LiveSerial(w: World, key: string, n: nat) {
    IsLive(w, key) && key in w.origin && w.origin[key] == n
  }

  predicate ExchangeSerial(w: World, pid: Pid, n: nat) {
    pid in w.exchanging && w.exchanging[pid].serial == n
  }

  predicate CreatedSerial(w: World, i: nat, n: nat) {
    i < |w.created| && w.created[i].exchange.serial == n
  }

  /** No transaction is used twice: waiting, in progress and completed logins all have
      different numbers. */
  ghost predicate Distinct(w: World) {
    && (forall j, k, n | LiveSerial(w, j, n) && LiveSerial(w, k, n) :: j == k)
    && (forall p, q, n | ExchangeSerial(w, p, n) && ExchangeSerial(w, q, n) :: p == q)
    && (forall i, j, n | CreatedSerial(w, i, n) && CreatedSerial(w, j, n) :: i == j)
    && (forall k, p, n | LiveSerial(w, k, n) :: !ExchangeSerial(w, p, n))
    && (forall k, i, n | LiveSerial(w, k, n) :: !CreatedSerial(w, i, n))
    && (forall p, i, n | ExchangeSerial(w, p, n) :: !CreatedSerial(w, i, n))
  }

  /** Nothing has this number yet. */
  ghost predicate Unused(w: World, n: nat) {
    && (forall k :: !LiveSerial(w, k, n))
    && (forall p :: !ExchangeSerial(w, p, n))
    && (forall i :: !CreatedSerial(w, i, n))
  }

  ghost predicate LoginInv(c: Config, w: World) {
    StoreInv(c, w) && HistoryInv(c, w) && Distinct(w)
  }

  /** The history only grows, and the number at this key is the same. */
  lemma StoredKept(c: Config, w: World, w': World, key: string, e: Entry)
    requires Stored(c, w, key, e)
    requires w.begun <= w'.begun && w.created <= w'.created
    requires key in w.origin ==> key in w'.origin && w'.origin[key] == w.origin[key]
    ensures Stored(c, w', key, e)
  {
    if e.Browser? {
      var i :| 0 <= i < |w.created| && CreatedAt(c, w.created[i], key, e.session);
      assert w'.created[i] == w.created[i];
    }
  }

  /** Entries may go from the store at any time. */
  predicate Fewer(w: World, w': World) {
    && w' == w.(store := w'.store)
    && forall key | key in w'.store :: key in w.store && w'.store[key] == w.store[key]
  }

  lemma FewerKeeps(c: Config, w: World, w': World)
    requires LoginInv(c, w) && Fewer(w, w')
    ensures LoginInv(c, w')
  {
    forall key | key in w'.store
      ensures Stored(c, w', key, w'.store[key])
    {
      StoredKept(c, w, w', key, w.store[key]);
    }
    assert forall k, n | LiveSerial(w', k, n) :: LiveSerial(w, k, n);
    assert forall p, n | ExchangeSerial(w', p, n) :: ExchangeSerial(w, p, n);
    assert forall i, n | CreatedSerial(w', i, n) :: CreatedSerial(w, i, n);
  }

  lemma NextIsUnused(c: Config, w: World)
    requires LoginInv(c, w)
    ensures Unused(w, |w.begun|)
  {
    forall k, n: nat | LiveSerial(w, k, n)
      ensures n < |w.begun|
    {
      assert Stored(c, w, k, w.store[k]);
    }
  }

  lemma BeginKeepsStore(c: Config, w: World, w': World, place: string, id: string, t: Transaction)
    requires StoreInv(c, w) && place == TransactionKey(c, t.surface, id)
    requires w' == w.(store := w.store[place := Waiting(t)], begun := w.begun + [t], origin := w.origin[place := |w.begun|])
    ensures StoreInv(c, w')
  {
    forall key | key in w'.store
      ensures Stored(c, w', key, w'.store[key])
    {
      if key != place {
        StoredKept(c, w, w', key, w.store[key]);
      }
    }
  }

  lemma BeginKeepsDistinct(w: World, w': World, place: string, t: Transaction)
    requires Distinct(w) && Unused(w, |w.begun|) && place !in w.store
    requires w' == w.(store := w.store[place := Waiting(t)], begun := w.begun + [t], origin := w.origin[place := |w.begun|])
    ensures Distinct(w')
  {
    assert forall k, n | LiveSerial(w', k, n) :: if k == place then n == |w.begun| else LiveSerial(w, k, n);
    assert forall p, n | ExchangeSerial(w', p, n) :: ExchangeSerial(w, p, n);
    assert forall i, n | CreatedSerial(w', i, n) :: CreatedSerial(w, i, n);
  }

  lemma HistoryGrows(c: Config, w: World, w': World)
    requires HistoryInv(c, w) && w.begun <= w'.begun
    requires w'.exchanging == w.exchanging && w'.created == w.created
    ensures HistoryInv(c, w')
  {
  }

  lemma BeginKeeps(c: Config, w: World, mode: string, id: string, t: Transaction)
    requires LoginInv(c, w)
    ensures LoginInv(c, BeginWorld(c, w, mode, id, t))
  {
    if BeginLogin(c, w.store, mode, id, t).Success? {
      var w' := BeginWorld(c, w, mode, id, t);
      NextIsUnused(c, w);
      BeginKeepsStore(c, w, w', TransactionKey(c, t.surface, id), id, t);
      BeginKeepsDistinct(w, w', TransactionKey(c, t.surface, id), t);
      HistoryGrows(c, w, w');
    }
  }

  lemma ExchangeKeepsDistinct(w: World, pid: Pid, x: Exchange, taken: seq<nat>)
    requires Distinct(w) && pid !in w.exchanging && Unused(w, x.serial)
    ensures Distinct(w.(exchanging := w.exchanging[pid := x], taken := taken))
  {
    var w' := w.(exchanging := w.exchanging[pid := x], taken := taken);
    assert forall k, n | LiveSerial(w', k, n) :: LiveSerial(w, k, n);
    assert forall p, n | ExchangeSerial(w', p, n) :: if p == pid then n == x.serial else ExchangeSerial(w, p, n);
    assert forall i, n | CreatedSerial(w', i, n) :: CreatedSerial(w, i, n);
  }

  lemma ExchangeKeeps(c: Config, w: World, pid: Pid, x: Exchange, taken: seq<nat>)
    requires LoginInv(c, w) && pid !in w.exchanging && Honest(w.begun, x) && Unused(w, x.serial)
    ensures LoginInv(c, w.(exchanging := w.exchanging[pid := x], taken := taken))
  {
    var w' := w.(exchanging := w.exchanging[pid := x], taken := taken);
    forall key | key in w'.store
      ensures Stored(c, w', key, w'.store[key])
    {
      StoredKept(c, w, w', key, w.store[key]);
    }
    ExchangeKeepsDistinct(w, pid, x, taken);
  }

  /** The number of a transaction that was just taken is free again. */
  lemma TakenIsUnused(c: Config, w: World, key: string)
    requires LoginInv(c, w) && IsLive(w, key) && key in w.origin
    ensures Unused(w.(store := w.store - {key}), w.origin[key])
  {
    var w' := w.(store := w.store - {key});
    assert LiveSerial(w, key, w.origin[key]);
    assert forall k, n | LiveSerial(w', k, n) :: LiveSerial(w, k, n) && k != key;
    assert forall p, n | ExchangeSerial(w', p, n) :: ExchangeSerial(w, p, n);
    assert forall i, n | CreatedSerial(w', i, n) :: CreatedSerial(w, i, n);
  }

  lemma TakeKeeps(c: Config, w: World, pid: Pid, s: Surface, cookie: Option<string>, state: string)
    requires LoginInv(c, w)
    ensures LoginInv(c, TakeWorld(c, w, pid, s, cookie, state))
  {
    var taken := TakeTransaction(c, w.store, s, cookie, state);
    var middle := w.(store := taken.0);
    FewerKeeps(c, w, middle);
    if pid !in w.exchanging && taken.1.Success? {
      var key := TransactionKey(c, s, cookie.value);
      assert Stored(c, w, key, w.store[key]);
      TakenIsUnused(c, w, key);
      ExchangeKeeps(c, middle, pid, Exchange(s, state, taken.1.value, w.origin[key]), w.taken + [w.origin[key]]);
    }
  }

  lemma AbandonKeeps(c: Config, w: World, pid: Pid)
    requires LoginInv(c, w)
    ensures LoginInv(c, w.(exchanging := w.exchanging - {pid}))
    ensures pid in w.exchanging ==> Unused(w.(exchanging := w.exchanging - {pid}), w.exchanging[pid].serial)
  {
    var w' := w.(exchanging := w.exchanging - {pid});
    forall key | key in w'.store
      ensures Stored(c, w', key, w'.store[key])
    {
      StoredKept(c, w, w', key, w.store[key]);
    }
    assert pid in w.exchanging ==> ExchangeSerial(w, pid, w.exchanging[pid].serial);
    assert forall k, n | LiveSerial(w', k, n) :: LiveSerial(w, k, n);
    assert forall p, n | ExchangeSerial(w', p, n) :: ExchangeSerial(w, p, n) && p != pid;
    assert forall i, n | CreatedSerial(w', i, n) :: CreatedSerial(w, i, n);
  }

  lemma BoundsHold(c: Config, x: Exchange, id: string, csrf: string, claims: Claims, now: nat)
    requires now / SECOND < Expiry(c, claims, now) && Allowed(c, x.surface, claims)
    ensures Bounded(c, Created(x, id, claims, now, SessionOf(c, x.surface, csrf, claims, now)))
  {
  }

  lemma AppendKeepsStore(c: Config, w: World, w': World, place: string, k: Created)
    requires StoreInv(c, w) && place == SessionKey(c, k.exchange.surface, k.id)
    requires w' == w.(store := w.store[place := Browser(k.session)], created := w.created + [k])
    ensures StoreInv(c, w')
  {
    forall key | key in w'.store
      ensures Stored(c, w', key, w'.store[key])
    {
      if key == place {
        assert CreatedAt(c, w'.created[|w.created|], key, k.session);
      } else {
        StoredKept(c, w, w', key, w.store[key]);
      }
    }
  }

  lemma AppendKeepsDistinct(w: World, w': World, place: string, k: Created)
    requires Distinct(w) && Unused(w, k.exchange.serial)
    requires w' == w.(store := w.store[place := Browser(k.session)], created := w.created + [k])
    ensures Distinct(w')
  {
    assert forall j, n | LiveSerial(w', j, n) :: LiveSerial(w, j, n);
    assert forall p, n | ExchangeSerial(w', p, n) :: ExchangeSerial(w, p, n);
    assert forall i, n | CreatedSerial(w', i, n) ::
        if i == |w.created| then n == k.exchange.serial else CreatedSerial(w, i, n);
  }

  lemma CreateKeeps(c: Config, w: World, pid: Pid, id: string, csrf: string, claims: Claims, now: nat)
    requires LoginInv(c, w)
    ensures LoginInv(c, CreateWorld(c, w, pid, id, csrf, claims, now))
  {
    if pid in w.exchanging {
      var x := w.exchanging[pid];
      var middle := w.(exchanging := w.exchanging - {pid});
      AbandonKeeps(c, w, pid);
      if CreateSession(c, w.store, x.surface, id, csrf, claims, now).Success? {
        var w' := CreateWorld(c, w, pid, id, csrf, claims, now);
        var k := Created(x, id, claims, now, SessionOf(c, x.surface, csrf, claims, now));
        BoundsHold(c, x, id, csrf, claims, now);
        AppendKeepsStore(c, middle, w', SessionKey(c, x.surface, id), k);
        AppendKeepsDistinct(middle, w', SessionKey(c, x.surface, id), k);
      }
    }
  }

  lemma StepKeepsLogin(c: Config, w: World, s: Step)
    requires LoginInv(c, w)
    ensures LoginInv(c, Apply(c, w, s))
  {
    match s
    case BeginStep(mode, id, t) => BeginKeeps(c, w, mode, id, t);
    case TakeStep(pid, surface, cookie, state) => TakeKeeps(c, w, pid, surface, cookie, state);
    case CreateStep(pid, id, csrf, claims, now) => CreateKeeps(c, w, pid, id, csrf, claims, now);
    case AbandonStep(pid) => AbandonKeeps(c, w, pid);
    case _ => FewerKeeps(c, w, Apply(c, w, s));
  }

  lemma {:induction false} RunKeepsLogin(c: Config, steps: seq<Step>)
    ensures LoginInv(c, Run(c, START, steps))
  {
    if steps != [] {
      RunKeepsLogin(c, steps[..|steps| - 1]);
      StepKeepsLogin(c, Run(c, START, steps[..|steps| - 1]), steps[|steps| - 1]);
    }
  }

  // ----- A transaction is taken at most once -----

  /** Numbers taken were given, none twice, and none of a transaction still waiting. */
  ghost predicate TakenInv(w: World) {
    && (forall i | 0 <= i < |w.taken| :: w.taken[i] < |w.begun|)
    && (forall i, j | 0 <= i < j < |w.taken| :: w.taken[i] != w.taken[j])
    && (forall k, n | LiveSerial(w, k, n) :: n !in w.taken)
  }

  lemma BeginKeepsTaken(c: Config, w: World, mode: string, id: string, t: Transaction)
    requires TakenInv(w)
    ensures TakenInv(BeginWorld(c, w, mode, id, t))
  {
    if BeginLogin(c, w.store, mode, id, t).Success? {
      var w' := BeginWorld(c, w, mode, id, t);
      var place := TransactionKey(c, t.surface, id);
      assert forall k, n | LiveSerial(w', k, n) :: if k == place then n == |w.begun| else LiveSerial(w, k, n);
    }
  }

  lemma TakeKeepsTaken(c: Config, w: World, pid: Pid, s: Surface, cookie: Option<string>, state: string)
    requires LoginInv(c, w) && TakenInv(w)
    ensures TakenInv(TakeWorld(c, w, pid, s, cookie, state))
  {
    var w' := TakeWorld(c, w, pid, s, cookie, state);
    if pid !in w.exchanging && TakeTransaction(c, w.store, s, cookie, state).1.Success? {
      var key := TransactionKey(c, s, cookie.value);
      assert Stored(c, w, key, w.store[key]);
      assert LiveSerial(w, key, w.origin[key]);
      assert w'.taken == w.taken + [w.origin[key]];
      assert forall k, n | LiveSerial(w', k, n) :: LiveSerial(w, k, n) && k != key;
    } else {
      assert forall k, n | LiveSerial(w', k, n) :: LiveSerial(w, k, n);
    }
  }

  lemma CreateWaitsForNothing(c: Config, w: World, pid: Pid, id: string, csrf: string, claims: Claims, now: nat)
    requires TakenInv(w)
    ensures TakenInv(CreateWorld(c, w, pid, id, csrf, claims, now))
  {
    assert forall k, n | LiveSerial(CreateWorld(c, w, pid, id, csrf, claims, now), k, n) :: LiveSerial(w, k, n);
  }

  lemma FewerWait(w: World, w': World)
    requires TakenInv(w) && w'.taken == w.taken && w'.begun == w.begun && w'.origin == w.origin
    requires forall key | key in w'.store :: key in w.store && w'.store[key] == w.store[key]
    ensures TakenInv(w')
  {
    assert forall k, n | LiveSerial(w', k, n) :: LiveSerial(w, k, n);
  }

  lemma StepKeepsTaken(c: Config, w: World, s: Step)
    requires LoginInv(c, w) && TakenInv(w)
    ensures TakenInv(Apply(c, w, s))
  {
    match s
    case BeginStep(mode, id, t) => BeginKeepsTaken(c, w, mode, id, t);
    case TakeStep(pid, surface, cookie, state) => TakeKeepsTaken(c, w, pid, surface, cookie, state);
    case CreateStep(pid, id, csrf, claims, now) => CreateWaitsForNothing(c, w, pid, id, csrf, claims, now);
    case _ => FewerWait(w, Apply(c, w, s));
  }

  /** One shot: over every run no two successful callbacks ever take the same transaction,
      abandoned and failed logins included, and each took one that was begun. */
  lemma {:induction false} TakenOnce(c: Config, steps: seq<Step>)
    ensures var w := Run(c, START, steps);
            && (forall i | 0 <= i < |w.taken| :: w.taken[i] < |w.begun|)
            && (forall i, j | 0 <= i < j < |w.taken| :: w.taken[i] != w.taken[j])
    ensures TakenInv(Run(c, START, steps))
  {
    if steps != [] {
      TakenOnce(c, steps[..|steps| - 1]);
      RunKeepsLogin(c, steps[..|steps| - 1]);
      StepKeepsTaken(c, Run(c, START, steps[..|steps| - 1]), steps[|steps| - 1]);
    }
  }

  // ----- Conservation -----

  function BegunOn(w: World, s: Surface): set<nat> {
    set i: nat | i < |w.begun| && w.begun[i].surface == s
  }

  function LiveOn(w: World, s: Surface): set<string> {
    set key | key in w.store && w.store[key].Waiting? && w.store[key].transaction.surface == s
  }

  function ExchangingOn(w: World, s: Surface): set<Pid> {
    set pid | pid in w.exchanging && w.exchanging[pid].surface == s
  }

  function CreatedOn(w: World, s: Surface): set<nat> {
    set i: nat | i < |w.created| && w.created[i].exchange.surface == s
  }

  ghost predicate Injective<K>(m: map<K, nat>) {
    forall j, k | j in m && k in m && m[j] == m[k] :: j == k
  }

  lemma {:induction false} InjectiveCount<K>(m: map<K, nat>)
    requires Injective(m)
    ensures |m.Values| == |m.Keys|
    decreases |m|
  {
    if m.Keys != {} {
      var k :| k in m;
      var rest := m - {k};
      InjectiveCount(rest);
      assert m.Keys == rest.Keys + {k};
      assert m.Values == rest.Values + {m[k]};
      assert m[k] !in rest.Values;
    } else {
      assert m.Values == {};
    }
  }

  /** The numbers of the waiting, the current and the completed logins of a surface. */
  function LiveSerials(w: World, s: Surface): map<string, nat> {
    map key | key in LiveOn(w, s) && key in w.origin :: w.origin[key]
  }

  function ExchangeSerials(w: World, s: Surface): map<Pid, nat> {
    map pid | pid in ExchangingOn(w, s) :: w.exchanging[pid].serial
  }

  function CreatedSerials(w: World, s: Surface): map<nat, nat> {
    map i | i in CreatedOn(w, s) :: w.created[i].exchange.serial
  }

  lemma LiveSerialsCount(c: Config, w: World, s: Surface)
    requires LoginInv(c, w)
    ensures |LiveSerials(w, s).Values| == |LiveOn(w, s)|
    ensures LiveSerials(w, s).Values <= BegunOn(w, s)
    ensures forall n | n in LiveSerials(w, s).Values :: exists key :: LiveSerial(w, key, n)
  {
    var m := LiveSerials(w, s);
    assert forall key | key in LiveOn(w, s) :: Stored(c, w, key, w.store[key]);
    assert forall key | key in m :: LiveSerial(w, key, m[key]);
    assert m.Keys == LiveOn(w, s);
    InjectiveCount(m);
  }

  lemma ExchangeSerialsCount(c: Config, w: World, s: Surface)
    requires LoginInv(c, w)
    ensures |ExchangeSerials(w, s).Values| == |ExchangingOn(w, s)|
    ensures ExchangeSerials(w, s).Values <= BegunOn(w, s)
    ensures forall n | n in ExchangeSerials(w, s).Values :: exists pid :: ExchangeSerial(w, pid, n)
  {
    var m := ExchangeSerials(w, s);
    assert forall pid | pid in m :: ExchangeSerial(w, pid, m[pid]);
    assert m.Keys == ExchangingOn(w, s);
    InjectiveCount(m);
  }

  lemma CreatedSerialsCount(c: Config, w: World, s: Surface)
    requires LoginInv(c, w)
    ensures |CreatedSerials(w, s).Values| == |CreatedOn(w, s)|
    ensures CreatedSerials(w, s).Values <= BegunOn(w, s)
    ensures forall n | n in CreatedSerials(w, s).Values :: exists i :: CreatedSerial(w, i, n)
  {
    var m := CreatedSerials(w, s);
    assert forall i | i in m :: CreatedSerial(w, i, m[i]);
    assert m.Keys == CreatedOn(w, s);
    InjectiveCount(m);
  }

  lemma SerialsAreApart(c: Config, w: World, s: Surface)
    requires LoginInv(c, w)
    ensures LiveSerials(w, s).Values !! ExchangeSerials(w, s).Values
    ensures LiveSerials(w, s).Values !! CreatedSerials(w, s).Values
    ensures ExchangeSerials(w, s).Values !! CreatedSerials(w, s).Values
  {
    LiveSerialsCount(c, w, s);
    ExchangeSerialsCount(c, w, s);
    CreatedSerialsCount(c, w, s);
    forall n | n in ExchangeSerials(w, s).Values
      ensures n !in LiveSerials(w, s).Values && n !in CreatedSerials(w, s).Values
    {
      var pid :| ExchangeSerial(w, pid, n);
    }
    forall n | n in CreatedSerials(w, s).Values
      ensures n !in LiveSerials(w, s).Values
    {
      var i :| CreatedSerial(w, i, n);
    }
  }

  lemma DisjointCount<T>(a: set<T>, b: set<T>, c: set<T>, all: set<T>)
    requires a !! b && a !! c && b !! c && a <= all && b <= all && c <= all
    ensures |a| + |b| + |c| <= |all|
  {
    assert |a + b + c| == |a + b| + |c| == |a| + |b| + |c|;
    assert all == (a + b + c) + (all - (a + b + c));
  }

  /** In every run and on each surface, the sessions created, the logins in progress and the
      waiting transactions together never exceed the logins begun. */
  lemma LoginConservation(c: Config, steps: seq<Step>, s: Surface)
    ensures var w := Run(c, START, steps);
            |CreatedOn(w, s)| + |ExchangingOn(w, s)| + |LiveOn(w, s)| <= |BegunOn(w, s)|
  {
    RunKeepsLogin(c, steps);
    var w := Run(c, START, steps);
    LiveSerialsCount(c, w, s);
    ExchangeSerialsCount(c, w, s);
    CreatedSerialsCount(c, w, s);
    SerialsAreApart(c, w, s);
    DisjointCount(LiveSerials(w, s).Values, ExchangeSerials(w, s).Values, CreatedSerials(w, s).Values, BegunOn(w, s));
  }

  /** Every session comes from a transaction begun on its surface whose state the browser
      presented, no two sessions from the same one, and is for a member of an organization
      that surface allows. */
  lemma OneSessionPerLogin(c: Config, steps: seq<Step>)
    ensures var w := Run(c, START, steps);
            && (forall i | 0 <= i < |w.created| ::
                  var x := w.created[i].exchange;
                  && x.serial < |w.begun| && w.begun[x.serial] == x.transaction
                  && x.transaction.surface == x.surface == w.created[i].session.surface
                  && x.transaction.state == x.presented
                  && Allowed(c, x.surface, w.created[i].claims))
            && (forall i, j | 0 <= i < j < |w.created| :: w.created[i].exchange.serial != w.created[j].exchange.serial)
  {
    RunKeepsLogin(c, steps);
    var w := Run(c, START, steps);
    forall i, j | 0 <= i < j < |w.created|
      ensures w.created[i].exchange.serial != w.created[j].exchange.serial
    {
      assert CreatedSerial(w, i, w.created[i].exchange.serial);
      assert CreatedSerial(w, j, w.created[j].exchange.serial);
    }
  }

  /** `k` was created for this surface and identifier, and the reading is before both the
      provider's expiry and the session's longest life. */
  predicate Justifies(c: Config, k: Created, s: Surface, cookie: string, now: nat, b: BrowserSession) {
    && k.session == b && k.exchange.surface == s && k.id == cookie
    && now < k.claims.expiresAt * SECOND && now < k.loginAt + c.sessionTtl * SECOND
  }

  lemma JustifiesAccepted(c: Config, w: World, s: Surface, cookie: string, now: nat, b: BrowserSession)
    requires LoginInv(c, w) && StoredSession(c, w, SessionKey(c, s, cookie), b)
    requires now < b.expiresAt * SECOND
    ensures exists i | 0 <= i < |w.created| :: Justifies(c, w.created[i], s, cookie, now, b)
  {
    var i :| 0 <= i < |w.created| && CreatedAt(c, w.created[i], SessionKey(c, s, cookie), b);
    KeysDoNotCollide(c.slug, s, SessionKind, cookie, w.created[i].exchange.surface, SessionKind, w.created[i].id);
    assert Bounded(c, w.created[i]);
    assert Justifies(c, w.created[i], s, cookie, now, b);
  }

  /** A returned session is this surface's, was created for the identifier presented, and has
      outlived neither the provider's token nor the session lifetime.  The settings may have
      changed since: it still is for the audience and the policy version of today's. */
  lemma ReturnedSessionIsCurrent(c: Config, steps: seq<Step>, today: Config, s: Surface,
                                 cookie: Option<string>, now: nat)
    requires today.slug == c.slug
    ensures var w := Run(c, START, steps);
            var r := GetSession(today, w.store, s, cookie, now).1;
            r.Some? ==>
              && r.value.surface == s && r.value.app == today.slug
              && r.value.audience == ProfileOf(today, s).clientId
              && r.value.policyVersion == ProfileOf(today, s).policyVersion
              && exists i | 0 <= i < |w.created| :: Justifies(c, w.created[i], s, cookie.value, now, r.value)
  {
    RunKeepsLogin(c, steps);
    var w := Run(c, START, steps);
    var r := GetSession(today, w.store, s, cookie, now).1;
    if r.Some? {
      var key := SessionKey(c, s, cookie.value);
      assert Stored(c, w, key, w.store[key]);
      JustifiesAccepted(c, w, s, cookie.value, now, r.value);
    }
  }

  // ----- The shared store keeps the surfaces and the kinds apart -----

  /** What is stored under a transaction key is a transaction of that surface, and under a
      session key a session of that surface: the surface checks never reject. */
  lemma KeysTellTheKind(c: Config, steps: seq<Step>, s: Surface, id: string)
    ensures var st := Run(c, START, steps).store;
            && (TransactionKey(c, s, id) in st ==>
                  st[TransactionKey(c, s, id)].Waiting? && st[TransactionKey(c, s, id)].transaction.surface == s)
            && (SessionKey(c, s, id) in st ==>
                  st[SessionKey(c, s, id)].Browser? && st[SessionKey(c, s, id)].session.surface == s)
  {
    RunKeepsLogin(c, steps);
    var w := Run(c, START, steps);
    forall k: Kind | Key(c.slug, s, k, id) in w.store
      ensures match w.store[Key(c.slug, s, k, id)]
              case Waiting(t) => k == TransactionKind && t.surface == s
              case Browser(b) => k == SessionKind && b.surface == s
    {
      KindOfEntry(c, w, s, k, id);
    }
  }

  lemma KindOfEntry(c: Config, w: World, s: Surface, k: Kind, id: string)
    requires LoginInv(c, w) && Key(c.slug, s, k, id) in w.store
    ensures match w.store[Key(c.slug, s, k, id)]
            case Waiting(t) => k == TransactionKind && t.surface == s
            case Browser(b) => k == SessionKind && b.surface == s
  {
    var key := Key(c.slug, s, k, id);
    if w.store[key].Waiting? {
      assert Stored(c, w, key, w.store[key]);
      var other :| key == TransactionKey(c, w.store[key].transaction.surface, other);
      KeysDoNotCollide(c.slug, s, k, id, w.store[key].transaction.surface, TransactionKind, other);
    } else {
      assert Stored(c, w, key, w.store[key]);
      var i :| 0 <= i < |w.created| && CreatedAt(c, w.created[i], key, w.store[key].session);
      assert Bounded(c, w.created[i]);
      KeysDoNotCollide(c.slug, s, k, id, w.created[i].exchange.surface, SessionKind, w.created[i].id);
    }
  }

  /** A callback is answered by exactly one thing: a transaction waiting under the presented
      identifier on this surface, with the presented state. */
  lemma CallbackNeedsItsTransaction(c: Config, steps: seq<Step>, s: Surface, cookie: Option<string>, state: string)
    ensures var st := Run(c, START, steps).store;
            var (st', r) := TakeTransaction(c, st, s, cookie, state);
            && (r.Success? <==>
                  ValidId(cookie) && exists t ::
                    && TransactionKey(c, s, cookie.value) in st && st[TransactionKey(c, s, cookie.value)] == Waiting(t)
                    && t.surface == s && t.state == state)
            && TakeTransaction(c, st', s, cookie, state).1.Failure?
  {
    if ValidId(cookie) {
      var st := Run(c, START, steps).store;
      KeysTellTheKind(c, steps, s, cookie.value);
      if TransactionKey(c, s, cookie.value) in st {
        assert st[TransactionKey(c, s, cookie.value)] == Waiting(st[TransactionKey(c, s, cookie.value)].transaction);
      }
    }
  }

  /** The surface and the kind of key a step of a browser works on. */
  predicate WorksOn(w: World, step: Step, s: Surface, k: Kind) {
    match step
    case BeginStep(_, _, t) => s == t.surface && k.TransactionKind?
    case TakeStep(_, surface, _, _) => s == surface && k.TransactionKind?
    case CreateStep(pid, _, _, _, _) => pid in w.exchanging && s == w.exchanging[pid].surface && k.SessionKind?
    case AbandonStep(_) => false
    case GetStep(surface, _, _) => s == surface && k.SessionKind?
    case DeleteStep(surface, _) => s == surface && k.SessionKind?
    case CancelStep(surface, _) => s == surface && k.TransactionKind?
    case ExpireStep(_) => true
  }

  /** The identifier in the key a step writes or removes. */
  function WorkedId(step: Step): Option<string> {
    match step
    case BeginStep(_, id, _) => Some(id)
    case TakeStep(_, _, cookie, _) => cookie
    case CreateStep(_, id, _, _, _) => Some(id)
    case GetStep(_, cookie, _) => cookie
    case DeleteStep(_, cookie) => cookie
    case CancelStep(_, cookie) => cookie
    case _ => None
  }

  /** Whatever identifiers it carries, a step of one surface leaves every entry of the other
      surface alone, and a step on transactions every session, and the other way round. */
  lemma SurfacesDoNotInterfere(c: Config, w: World, step: Step, s: Surface, k: Kind, id: string)
    requires !WorksOn(w, step, s, k)
    ensures var key := Key(c.slug, s, k, id);
            && (key in w.store <==> key in Apply(c, w, step).store)
            && (key in w.store ==> Apply(c, w, step).store[key] == w.store[key])
  {
    var key := Key(c.slug, s, k, id);
    if WorkedId(step).Some? {
      forall s', k' | WorksOn(w, step, s', k')
        ensures Key(c.slug, s', k', WorkedId(step).value) != key
      {
        KeysDoNotCollide(c.slug, s, k, id, s', k', WorkedId(step).value);
      }
    }
  }

  // ----- What was stored can be used -----

  /** The step neither removes nor replaces the session stored for this identifier, valid until
      `until` seconds: no logout of it, no removal by the store, no read of it at or after its
      expiry. */
  predicate SparesSession(c: Config, step: Step, s: Surface, id: string, until: int) {
    match step
    case DeleteStep(surface, cookie) => !(surface == s && cookie == Some(id))
    case GetStep(surface, cookie, now) => surface == s && cookie == Some(id) ==> now < until * SECOND
    case ExpireStep(key) => key != SessionKey(c, s, id)
    case _ => true
  }

  /** The session a callback with these claims must yield. */
  predicate IsSessionOf(c: Config, b: BrowserSession, s: Surface, csrf: string, claims: Claims, now: nat) {
    && b.app == c.slug && b.surface == s
    && b.audience == Settings(c, s).clientId && b.policyVersion == Settings(c, s).policyVersion
    && b.subject == claims.subject && b.csrfToken == csrf && b.expiresAt == Until(c, claims, now)
  }

  lemma OtherKeysStay(c: Config, w: World, step: Step, s: Surface, k: Kind, id: string)
    requires !WorksOn(w, step, s, k) || (WorkedId(step).Some? && WorkedId(step) != Some(id)) || step.AbandonStep?
    ensures var key := Key(c.slug, s, k, id);
            key in w.store ==> key in Apply(c, w, step).store && Apply(c, w, step).store[key] == w.store[key]
  {
    if !WorksOn(w, step, s, k) {
      SurfacesDoNotInterfere(c, w, step, s, k, id);
    } else {
      forall s', k' | WorksOn(w, step, s', k')
        ensures Key(c.slug, s', k', WorkedId(step).value) != Key(c.slug, s, k, id)
      {
        KeysDoNotCollide(c.slug, s, k, id, s', k', WorkedId(step).value);
      }
    }
  }

  lemma StepSparesSession(c: Config, w: World, step: Step, s: Surface, id: string, csrf: string, claims: Claims, now: nat)
    requires SparesSession(c, step, s, id, Until(c, claims, now))
    requires var key := SessionKey(c, s, id);
             key in w.store && w.store[key].Browser? && IsSessionOf(c, w.store[key].session, s, csrf, claims, now)
    ensures var key := SessionKey(c, s, id);
            key in Apply(c, w, step).store && Apply(c, w, step).store[key] == w.store[key]
  {
    if step.GetStep? && step.surface == s && step.cookie == Some(id) {
      GetEffect(c, w.store, s, step.cookie, step.now);
    } else if step.GetStep? && step.cookie == None {
      GetEffect(c, w.store, step.surface, step.cookie, step.now);
    } else if step.DeleteStep? && step.cookie == None {
      RemoveEffect(c, w.store, step.surface, step.cookie);
    } else if step.CreateStep? && step.id == id {
      if step.pid in w.exchanging {
        var x := w.exchanging[step.pid];
        CreateEffect(c, w.store, x.surface, step.id, step.csrf, step.claims, step.now);
        KeysDoNotCollide(c.slug, s, SessionKind, id, x.surface, SessionKind, step.id);
      }
    } else if !step.ExpireStep? {
      OtherKeysStay(c, w, step, s, SessionKind, id);
    }
  }

  lemma {:induction false} SessionStays(c: Config, w: World, steps: seq<Step>, s: Surface, id: string, csrf: string, claims: Claims, now: nat)
    requires forall i | 0 <= i < |steps| :: SparesSession(c, steps[i], s, id, Until(c, claims, now))
    requires var key := SessionKey(c, s, id);
             key in w.store && w.store[key].Browser? && IsSessionOf(c, w.store[key].session, s, csrf, claims, now)
    ensures var key := SessionKey(c, s, id);
            key in Run(c, w, steps).store && Run(c, w, steps).store[key] == w.store[key]
  {
    if steps != [] {
      SessionStays(c, w, steps[..|steps| - 1], s, id, csrf, claims, now);
      StepSparesSession(c, Run(c, w, steps[..|steps| - 1]), steps[|steps| - 1], s, id, csrf, claims, now);
    }
  }

  /** A successful callback yields a usable session: if the token has time left, the
      organization is allowed and the identifier is new, then after any run that spares it,
      every read before min(provider expiry, login time + session lifetime) returns it, with
      this app, surface, client and policy version, the claims' subject and the drawn token. */
  lemma SessionIsReadBack(c: Config, w: World, pid: Pid, id: string, csrf: string, claims: Claims, now: nat,
                          later: seq<Step>, readAt: nat)
    requires pid in w.exchanging && 1 <= |id| <= 256
    requires var s := w.exchanging[pid].surface;
             && claims.organization.Some? && claims.organization.value in Settings(c, s).organizations
             && SessionKey(c, s, id) !in w.store
             && forall i | 0 <= i < |later| :: SparesSession(c, later[i], s, id, Until(c, claims, now))
    requires readAt < Until(c, claims, now) * 1_000_000 && now / 1_000_000 < Until(c, claims, now)
    ensures var s := w.exchanging[pid].surface;
            var w' := Run(c, Apply(c, w, CreateStep(pid, id, csrf, claims, now)), later);
            var (st, r) := GetSession(c, w'.store, s, Some(id), readAt);
            && st == w'.store && r.Some?
            && r.value.app == c.slug && r.value.surface == s
            && r.value.audience == Settings(c, s).clientId && r.value.policyVersion == Settings(c, s).policyVersion
            && r.value.subject == claims.subject && r.value.csrfToken == csrf
            && r.value.expiresAt == Until(c, claims, now)
  {
    var s := w.exchanging[pid].surface;
    var w1 := Apply(c, w, CreateStep(pid, id, csrf, claims, now));
    CreateEffect(c, w.store, s, id, csrf, claims, now);
    SessionStays(c, w1, later, s, id, csrf, claims, now);
    GetEffect(c, Run(c, w1, later).store, s, Some(id), readAt);
  }

  /** The step leaves the waiting transaction alone: no callback or cancellation under its
      identifier, and no removal by the store. */
  predicate SparesTransaction(c: Config, step: Step, s: Surface, id: string) {
    match step
    case TakeStep(_, surface, cookie, _) => !(surface == s && cookie == Some(id))
    case CancelStep(surface, cookie) => !(surface == s && cookie == Some(id))
    case ExpireStep(key) => key != TransactionKey(c, s, id)
    case _ => true
  }

  lemma StepSparesTransaction(c: Config, w: World, step: Step, t: Transaction, id: string)
    requires SparesTransaction(c, step, t.surface, id)
    requires var key := TransactionKey(c, t.surface, id); key in w.store && w.store[key] == Waiting(t)
    ensures var key := TransactionKey(c, t.surface, id);
            key in Apply(c, w, step).store && Apply(c, w, step).store[key] == Waiting(t)
  {
    if step.BeginStep? && step.id == id {
      BeginEffect(c, w.store, step.mode, step.id, step.transaction);
      KeysDoNotCollide(c.slug, t.surface, TransactionKind, id, step.transaction.surface, TransactionKind, id);
    } else if step.TakeStep? && step.cookie == None {
      TakeEffect(c, w.store, step.surface, step.cookie, step.state);
    } else if step.CancelStep? && step.cookie == None {
      RemoveEffect(c, w.store, step.surface, step.cookie);
    } else if !step.ExpireStep? {
      OtherKeysStay(c, w, step, t.surface, TransactionKind, id);
    }
  }

  lemma {:induction false} TransactionStays(c: Config, w: World, steps: seq<Step>, t: Transaction, id: string)
    requires forall i | 0 <= i < |steps| :: SparesTransaction(c, steps[i], t.surface, id)
    requires var key := TransactionKey(c, t.surface, id); key in w.store && w.store[key] == Waiting(t)
    ensures var key := TransactionKey(c, t.surface, id);
            key in Run(c, w, steps).store && Run(c, w, steps).store[key] == Waiting(t)
  {
    if steps != [] {
      TransactionStays(c, w, steps[..|steps| - 1], t, id);
      StepSparesTransaction(c, Run(c, w, steps[..|steps| - 1]), steps[|steps| - 1], t, id);
    }
  }

  /** A begun login can be completed: after any run that spares its transaction, a callback with
      its identifier and state gets the very transaction, with its nonce and verifier, and one
      with another state does not. */
  lemma LoginCanComplete(c: Config, w: World, mode: string, id: string, t: Transaction, later: seq<Step>, state: string)
    requires mode == "login" || (mode == "signup" && t.surface == Web)
    requires TransactionKey(c, t.surface, id) !in w.store && 1 <= |id| <= 256
    requires forall i | 0 <= i < |later| :: SparesTransaction(c, later[i], t.surface, id)
    ensures var w' := Run(c, Apply(c, w, BeginStep(mode, id, t)), later);
            TakeTransaction(c, w'.store, t.surface, Some(id), state).1
            == if state == t.state then Success(t) else Failure(TransactionInvalid)
  {
    var w1 := Apply(c, w, BeginStep(mode, id, t));
    BeginEffect(c, w.store, mode, id, t);
    TransactionStays(c, w1, later, t, id);
    TakeEffect(c, Run(c, w1, later).store, t.surface, Some(id), state);
  }
}
