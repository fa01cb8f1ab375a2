/** The consumer's transactions as functions on the ledger. */
module Consumer {
  import opened Wrappers
  import opened Clock
  import opened Schema
  import opened Publisher

  /** A per-resource execution lease: `owner` is drawn anew by every attempt to acquire. */
  datatype ConsumerLease = ConsumerLease(resource: string, message: Id, owner: Uuid, epoch: nat)

  /** The eligibility read of claim_execution.  It takes no lock, so it may be stale when the
      lease is acquired. */
  predicate Eligible(l: Ledger, p: Policy, now: int, id: Id) {
    && id in l.outbox
    && l.outbox[id].intent.topic in p.topics
    && Due(l.outbox[id].intent, now)
    && Receipt(l.outbox[id].intent.topic, id) !in l.inbox
    && !IsDead(l, id)
  }

  function Resource(l: Ledger, id: Id): string
    requires id in l.outbox
  {
    ResourceKey(l.outbox[id].intent.topic, l.outbox[id].intent.key)
  }

  /** The upsert may proceed: no row yet, or its lease has ended. */
  predicate Vacant(l: Ledger, resource: string, now: int) {
    resource in l.executions ==> Reached(l.executions[resource].expires, now)
  }

  function NextEpoch(l: Ledger, resource: string): nat {
    if resource in l.executions then l.executions[resource].epoch + 1 else 1
  }

  /** The upsert and, under the row lock it takes, the second look at the inbox. */
  function Acquire(l: Ledger, p: Policy, id: Id, owner: Uuid, now: int): (Ledger, Option<ConsumerLease>)
    requires id in l.outbox
  {
    var resource := Resource(l, id);
    if !Vacant(l, resource, now) then (l, None) else
      var epoch := NextEpoch(l, resource);
      var row := Execution(id, owner, epoch, At(now + p.leaseSeconds * SECOND));
      if Receipt(l.outbox[id].intent.topic, id) in l.inbox then
        (l.(executions := l.executions[resource := row.(expires := NegInf)]), None)
      else
        (l.(executions := l.executions[resource := row]), Some(ConsumerLease(resource, id, owner, epoch)))
  }

  predicate Matches(x: Execution, lease: ConsumerLease) {
    x.message == lease.message && x.owner == lease.owner && x.epoch == lease.epoch
  }

  predicate OnRow(l: Ledger, lease: ConsumerLease) {
    lease.resource in l.executions && Matches(l.executions[lease.resource], lease)
  }

  /** CHECK_LEASE */
  predicate Current(l: Ledger, lease: ConsumerLease, now: int) {
    OnRow(l, lease) && !Reached(l.executions[lease.resource].expires, now)
  }

  function SetExpiry(l: Ledger, resource: string, expires: Instant): Ledger
    requires resource in l.executions
  {
    l.(executions := l.executions[resource := l.executions[resource].(expires := expires)])
  }

  function Renew(l: Ledger, p: Policy, lease: ConsumerLease, now: int): Result<Ledger, DeliveryError> {
    if Current(l, lease, now) then Success(SetExpiry(l, lease.resource, At(now + p.leaseSeconds * SECOND)))
    else Failure(LeaseLost)
  }

  /** Released is a state, not a time: the row stays, with its epoch. */
  function Release(l: Ledger, lease: ConsumerLease): Ledger {
    if OnRow(l, lease) then SetExpiry(l, lease.resource, NegInf) else l
  }

  /** INSERT ... ON CONFLICT DO NOTHING */
  function AddReceipt(l: Ledger, r: Receipt, now: int): Ledger {
    if r in l.inbox then l else l.(inbox := l.inbox[r := now])
  }

  /** The last commit of consume: refused unless the guard finds the lease current; the
      receipt and the handler's writes go in together. */
  function CommitFinal(l: Ledger, lease: ConsumerLease, topic: string, now: int): Result<Ledger, DeliveryError> {
    if Current(l, lease, now) then Success(AddReceipt(l, Receipt(topic, lease.message), now))
    else Failure(LeaseLost)
  }
}
