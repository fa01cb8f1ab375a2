/** The publisher's transactions as functions on the ledger: claim, finish, reconcile,
    replay, and the older batch lease.  `now` is the database clock of the transaction;
    rows in `locked` are held by another transaction and skipped. */
module Publisher {
  import opened Wrappers
  import opened Clock
  import opened Schema
  import opened Ordering

  /** topics maps a registered topic to the consumer whose receipt acknowledges it; None
      marks a rebuildable hint, which nobody acknowledges. */
  datatype Policy = Policy(topics: map<string, Option<string>>, leaseSeconds: nat, maxAttempts: nat)

  predicate ValidPolicy(p: Policy) {
    1 <= p.leaseSeconds <= 3600 && 1 <= p.maxAttempts <= 100
  }

  /** What a claim returns to its publisher: the columns finish_delivery reads back. */
  datatype Ticket = Ticket(id: Id, owner: string, attempts: nat)

  datatype DeliveryError = LeaseLost | OutsidePolicy | NotDeadLettered | InvalidRetry | InvalidConsumer

  // ----- claim_delivery -----

  predicate Lapsed(m: Message, now: int) {
    m.leaseExpires.Some? && m.leaseExpires.value <= now
  }

  /** Waiting for a publisher: pending, or left in delivery by one whose lease ran out. */
  predicate Open(m: Message, now: int) {
    m.status.Pending? || (m.status.Delivering? && Lapsed(m, now))
  }

  predicate Claimable(l: Ledger, p: Policy, now: int, id: Id) {
    && id in l.outbox
    && l.outbox[id].intent.topic in p.topics
    && Reached(l.outbox[id].availableAt, now)
    && Due(l.outbox[id].intent, now)
    && Open(l.outbox[id], now)
    && !IsDead(l, id)
  }

  function ClaimableSet(l: Ledger, p: Policy, now: int, locked: set<Id>): set<Id> {
    set id | id in l.outbox.Keys && id !in locked && Claimable(l, p, now, id)
  }

  function LeasedRow(m: Message, owner: string, expires: int): Message {
    m.(status := Delivering, leaseOwner := Some(owner), leaseExpires := Some(expires), attempts := m.attempts + 1)
  }

  /** UPDATE outbox_message ... WHERE id=:id */
  function PutRow(l: Ledger, id: Id, m: Message): Ledger
    requires id in l.outbox
  {
    l.(outbox := l.outbox[id := m])
  }

  function Claim(l: Ledger, p: Policy, owner: string, now: int, locked: set<Id>): (Ledger, Option<Ticket>) {
    var s := ClaimableSet(l, p, now, locked);
    if s == {} then (l, None) else
      var id := Earliest(l.outbox, s);
      (PutRow(l, id, LeasedRow(l.outbox[id], owner, now + p.leaseSeconds * SECOND)),
       Some(Ticket(id, owner, l.outbox[id].attempts + 1)))
  }

  // ----- finish_delivery -----

  function Pow2(n: nat): nat {
    if n == 0 then 1 else 2 * Pow2(n - 1)
  }

  /** min(300, 2 ** min(attempts, 8)) */
  function BackoffSeconds(attempts: nat): nat {
    var e := if attempts < 8 then attempts else 8;
    if Pow2(e) < 300 then Pow2(e) else 300
  }

  lemma BackoffBounds(attempts: nat)
    ensures 1 <= BackoffSeconds(attempts) <= 256
    ensures attempts > 0 ==> BackoffSeconds(attempts) > 1
    ensures attempts >= 8 ==> BackoffSeconds(attempts) == 256
    ensures attempts < 8 ==> BackoffSeconds(attempts + 1) == 2 * BackoffSeconds(attempts)
    ensures BackoffSeconds(0) == 1
  {
    assert Pow2(1) == 2 && Pow2(2) == 4 && Pow2(3) == 8 && Pow2(4) == 16;
    assert Pow2(5) == 32 && Pow2(6) == 64 && Pow2(7) == 128 && Pow2(8) == 256;
  }

  predicate Holds(l: Ledger, t: Ticket, now: int) {
    && t.id in l.outbox
    && l.outbox[t.id].leaseOwner == Some(t.owner)
    && l.outbox[t.id].status.Delivering?
    && l.outbox[t.id].leaseExpires.Some?
    && l.outbox[t.id].leaseExpires.value > now
  }

  /** A Python string is an error when it is not empty: "" publishes without a time. */
  predicate IsError(error: Option<string>) {
    error.Some? && error.value != ""
  }

  function FinishedRow(m: Message, attempts: nat, error: Option<string>, now: int): Message {
    m.(status := if IsError(error) then Pending else Published,
       publishedAt := if error.None? then Some(now) else m.publishedAt,
       leaseOwner := None,
       leaseExpires := None,
       lastError := error,
       availableAt := At(now + BackoffSeconds(attempts) * SECOND))
  }

  function Bury(l: Ledger, id: Id, error: string, now: int): Ledger {
    l.(dead := l.dead[id := DeadLetter(if |error| <= 256 then error else error[..256], now, None)])
  }

  function Finish(l: Ledger, p: Policy, t: Ticket, error: Option<string>, now: int): Result<Ledger, DeliveryError> {
    if !Holds(l, t, now) then
      Failure(LeaseLost)
    else
      var l' := PutRow(l, t.id, FinishedRow(l.outbox[t.id], t.attempts, error, now));
      Success(if IsError(error) && t.attempts >= p.maxAttempts then Bury(l', t.id, error.value, now) else l')
  }

  // ----- reconcile -----

  /** Out of attempts and not being published: selected by the first statement. */
  predicate Exhausted(l: Ledger, p: Policy, now: int, id: Id) {
    && id in l.outbox
    && l.outbox[id].intent.topic in p.topics
    && l.outbox[id].attempts >= p.maxAttempts
    && Open(l.outbox[id], now)
    && !IsDead(l, id)
  }

  predicate Executing(l: Ledger, now: int, id: Id) {
    exists k | k in l.executions.Keys :: l.executions[k].message == id && !Reached(l.executions[k].expires, now)
  }

  /** Published longer than a lease ago, with no receipt, no execution and no dead letter:
      selected by the topic's statement. */
  predicate Unacknowledged(l: Ledger, p: Policy, now: int, topic: string, id: Id)
    requires topic in p.topics && p.topics[topic].Some?
  {
    && id in l.outbox
    && l.outbox[id].intent.topic == topic
    && l.outbox[id].status.Published?
    && l.outbox[id].publishedAt.Some?
    && l.outbox[id].publishedAt.value < now - p.leaseSeconds * SECOND
    && Receipt(p.topics[topic].value, id) !in l.inbox
    && !Executing(l, now, id)
    && !IsDead(l, id)
  }

  predicate Overdue(l: Ledger, p: Policy, now: int, id: Id) {
    && id in l.outbox
    && l.outbox[id].intent.topic in p.topics
    && p.topics[l.outbox[id].intent.topic].Some?
    && Unacknowledged(l, p, now, l.outbox[id].intent.topic, id)
  }

  function ExhaustedSet(l: Ledger, p: Policy, now: int, locked: set<Id>): set<Id> {
    set id | id in l.outbox.Keys && id !in locked && Exhausted(l, p, now, id)
  }

  function OverdueSet(l: Ledger, p: Policy, now: int, locked: set<Id>): set<Id> {
    set id | id in l.outbox.Keys && id !in locked && Overdue(l, p, now, id)
  }

  /** The rows of a selection that still have attempts left. */
  function Retriable(l: Ledger, p: Policy, ids: set<Id>): set<Id>
    requires ids <= l.outbox.Keys
  {
    set id | id in ids && l.outbox[id].attempts < p.maxAttempts
  }

  function RequeuedRow(m: Message): Message {
    m.(status := Pending, availableAt := NegInf)
  }

  const EXHAUSTED_CODE := "delivery_attempts_exhausted"
  const UNACKNOWLEDGED_CODE := "consumer_unacknowledged"

  /** The dead letters of a ledger in which exactly `exhausted` and `spent` were buried. */
  function Buried(dead: map<Id, DeadLetter>, exhausted: set<Id>, spent: set<Id>, now: int): map<Id, DeadLetter> {
    map id | id in dead.Keys + exhausted + spent ::
      if id in exhausted then DeadLetter(EXHAUSTED_CODE, now, None)
      else if id in spent then DeadLetter(UNACKNOWLEDGED_CODE, now, None)
      else dead[id]
  }

  function Requeued(outbox: map<Id, Message>, requeue: set<Id>): map<Id, Message> {
    map id | id in outbox.Keys :: if id in requeue then RequeuedRow(outbox[id]) else outbox[id]
  }

  /** `exhausted` is buried; of `overdue`, rows with attempts left are requeued and the
      others buried. */
  function Sweep(l: Ledger, p: Policy, exhausted: set<Id>, overdue: set<Id>, now: int): Ledger
    requires overdue <= l.outbox.Keys
  {
    var requeue := Retriable(l, p, overdue);
    l.(outbox := Requeued(l.outbox, requeue), dead := Buried(l.dead, exhausted, overdue - requeue, now))
  }

  /** Every selection made on the ledger as it was before the transaction, all at once. */
  function Reconcile(l: Ledger, p: Policy, now: int, locked: set<Id>): Ledger {
    Sweep(l, p, ExhaustedSet(l, p, now, locked), OverdueSet(l, p, now, locked), now)
  }

  /** The number reconcile returns. */
  function ReconcileCount(l: Ledger, p: Policy, now: int, locked: set<Id>): nat {
    |Retriable(l, p, OverdueSet(l, p, now, locked))|
  }

  // ----- replay -----

  function ReplayedRow(m: Message): Message {
    m.(status := Pending, attempts := 0, availableAt := NegInf, lastError := None, leaseOwner := None, leaseExpires := None)
  }

  function Replay(l: Ledger, p: Policy, id: Id, now: int): Result<Ledger, DeliveryError> {
    if id !in l.outbox || l.outbox[id].intent.topic !in p.topics then Failure(OutsidePolicy)
    else if !IsDead(l, id) then Failure(NotDeadLettered)
    else Success(PutRow(l, id, ReplayedRow(l.outbox[id])).(dead := l.dead[id := l.dead[id].(replayedAt := Some(now))]))
  }

  // ----- the older lease path: claim_batch, mark_published, mark_failed -----

  /** `started` is NOW(), the start of the transaction. */
  predicate BatchClaimable(l: Ledger, started: int, now: int, id: Id) {
    && id in l.outbox
    && Reached(l.outbox[id].availableAt, started)
    && Due(l.outbox[id].intent, now)
    && (l.outbox[id].status.Pending?
        || (l.outbox[id].status.Delivering? && l.outbox[id].leaseExpires.Some? && l.outbox[id].leaseExpires.value < started))
  }

  function BatchSet(l: Ledger, started: int, now: int, locked: set<Id>): set<Id> {
    set id | id in l.outbox.Keys && id !in locked && BatchClaimable(l, started, now, id)
  }

  predicate ValidBatch(owner: string, limit: nat, leaseSeconds: nat) {
    1 <= |owner| <= 128 && 1 <= limit <= 1000 && 1 <= leaseSeconds <= 3600
  }

  function LeaseAll(l: Ledger, ids: seq<Id>, owner: string, expires: int): Ledger {
    l.(outbox := map id | id in l.outbox.Keys ::
         if id in ids then LeasedRow(l.outbox[id], owner, expires) else l.outbox[id])
  }

  function BatchIds(l: Ledger, limit: nat, started: int, now: int, locked: set<Id>): seq<Id> {
    Take(l.outbox, BatchSet(l, started, now, locked), limit)
  }

  function ClaimBatch(l: Ledger, owner: string, limit: nat, leaseSeconds: nat, started: int, now: int,
                      locked: set<Id>): Ledger {
    LeaseAll(l, BatchIds(l, limit, started, now, locked), owner, started + leaseSeconds * SECOND)
  }

  function BatchPublishedRow(m: Message, started: int): Message {
    m.(status := Published, publishedAt := Some(started), leaseOwner := None, leaseExpires := None, lastError := None)
  }

  function BatchFailedRow(m: Message, code: string, retrySeconds: nat, started: int): Message {
    m.(status := Pending, availableAt := At(started + retrySeconds * SECOND),
       leaseOwner := None, leaseExpires := None, lastError := Some(code))
  }

  function MarkPublished(l: Ledger, id: Id, owner: string, started: int, now: int): Result<Ledger, DeliveryError> {
    if !Holds(l, Ticket(id, owner, 0), now) then Failure(LeaseLost)
    else Success(PutRow(l, id, BatchPublishedRow(l.outbox[id], started)))
  }

  predicate ValidRetry(code: string, retrySeconds: nat) {
    1 <= |code| <= 256 && 1 <= retrySeconds <= 86400
  }

  function MarkFailed(l: Ledger, id: Id, owner: string, code: string, retrySeconds: nat, started: int,
                      now: int): Result<Ledger, DeliveryError> {
    if !ValidRetry(code, retrySeconds) then Failure(InvalidRetry)
    else if !Holds(l, Ticket(id, owner, 0), now) then Failure(LeaseLost)
    else Success(PutRow(l, id, BatchFailedRow(l.outbox[id], code, retrySeconds, started)))
  }
}
