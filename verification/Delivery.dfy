/** The stateful classes over one database: every method is one transaction, and is proved
    against the ledger function of the same transaction. */
module Delivery {
  import opened Wrappers
  import opened Clock
  import opened Schema
  import opened Intents
  import opened Ordering
  import opened Publisher
  import opened Consumer
  import opened Sweeping

  class Database {
    var outbox: map<Id, Message>
    var byKey: map<string, Id>
    var inbox: map<Receipt, int>
    var dead: map<Id, DeadLetter>
    var executions: map<string, Execution>

    constructor ()
      ensures State() == EMPTY
    {
      outbox, byKey, inbox, dead, executions := map[], map[], map[], map[], map[];
    }

    function State(): Ledger
      reads this
    {
      Ledger(outbox, byKey, inbox, dead, executions)
    }

    /** INSERT ... ON CONFLICT (message_id) DO UPDATE into the dead-letter journal. */
    method Bury(id: Id, error: string, now: int)
      modifies this`dead
      ensures State() == Publisher.Bury(old(State()), id, error, now)
    {
      var code := if |error| <= 256 then error else error[..256];
      dead := dead[id := DeadLetter(code, now, None)];
    }

    /** UPDATE outbox_message SET status='pending', available_at='-infinity' */
    method Requeue(id: Id)
      requires id in outbox
      modifies this`outbox
      ensures State() == RequeueOne(old(State()), id)
    {
      outbox := outbox[id := RequeuedRow(outbox[id])];
    }
  }

  /** SqlOutboxRepository */
  class OutboxRepository {
    const db: Database

    constructor (db: Database)
      ensures this.db == db
    {
      this.db := db;
    }

    method Enqueue(e: Event, newId: Id, now: int) returns (r: Result<Id, EnqueueError>)
      modifies db
      ensures match Intents.Enqueue(old(db.State()), e, newId, now)
              case Success((l, id)) => db.State() == l && r == Success(id)
              case Failure(error) => db.State() == old(db.State()) && r == Failure(error)
    {
      if !ValidEvent(e) {
        return Failure(InvalidEvent);
      }
      if e.deduplicationKey in db.byKey {
        var id := db.byKey[e.deduplicationKey];
        if id in db.outbox && db.outbox[id].intent == IntentOf(e) {
          return Success(id);
        }
        return Failure(KeyReused);
      }
      if newId in db.outbox {
        return Failure(IdTaken);
      }
      db.outbox := db.outbox[newId := NewMessage(e, now)];
      db.byKey := db.byKey[e.deduplicationKey := newId];
      return Success(newId);
    }

    /** INSERT ... ON CONFLICT DO NOTHING RETURNING: whether the receipt is new. */
    method ClaimInboxOnce(consumer: string, id: Id, now: int) returns (r: Result<bool, string>)
      modifies db`inbox
      ensures !(1 <= |consumer| <= 128) ==> r.Failure? && db.State() == old(db.State())
      ensures 1 <= |consumer| <= 128 ==>
                r == Success(Receipt(consumer, id) !in old(db.inbox))
                && db.State() == AddReceipt(old(db.State()), Receipt(consumer, id), now)
    {
      if !(1 <= |consumer| <= 128) {
        return Failure("invalid inbox consumer");
      }
      var receipt := Receipt(consumer, id);
      if receipt in db.inbox {
        return Success(false);
      }
      db.inbox := db.inbox[receipt := now];
      return Success(true);
    }

    method ClaimBatch(owner: string, limit: nat, leaseSeconds: nat, started: int, now: int, locked: set<Id>)
      returns (r: Result<seq<Id>, string>)
      modifies db`outbox
      ensures r.Success? <==> 1 <= |owner| <= 128 && 1 <= limit <= 1000 && 1 <= leaseSeconds <= 3600
      ensures !ValidBatch(owner, limit, leaseSeconds) ==> r.Failure? && db.State() == old(db.State())
      ensures ValidBatch(owner, limit, leaseSeconds) ==>
                db.State() == Publisher.ClaimBatch(old(db.State()), owner, limit, leaseSeconds, started, now, locked)
                && r == Success(BatchIds(old(db.State()), limit, started, now, locked))
    {
      if !ValidBatch(owner, limit, leaseSeconds) {
        return Failure("invalid outbox claim parameters");
      }
      var ids := BatchIds(db.State(), limit, started, now, locked);
      db.outbox := map id | id in db.outbox.Keys ::
        if id in ids then LeasedRow(db.outbox[id], owner, started + leaseSeconds * SECOND) else db.outbox[id];
      return Success(ids);
    }

    method MarkPublished(id: Id, owner: string, started: int, now: int) returns (r: Result<(), DeliveryError>)
      modifies db`outbox
      ensures match Publisher.MarkPublished(old(db.State()), id, owner, started, now)
              case Success(l) => db.State() == l && r == Success(())
              case Failure(error) => db.State() == old(db.State()) && r == Failure(error)
    {
      if !Holds(db.State(), Ticket(id, owner, 0), now) {
        return Failure(LeaseLost);
      }
      db.outbox := db.outbox[id := BatchPublishedRow(db.outbox[id], started)];
      return Success(());
    }

    method MarkFailed(id: Id, owner: string, error: string, retrySeconds: nat, started: int, now: int)
      returns (r: Result<(), DeliveryError>)
      modifies db`outbox
      ensures match Publisher.MarkFailed(old(db.State()), id, owner, error, retrySeconds, started, now)
              case Success(l) => db.State() == l && r == Success(())
              case Failure(e) => db.State() == old(db.State()) && r == Failure(e)
    {
      if !ValidRetry(error, retrySeconds) {
        return Failure(InvalidRetry);
      }
      if !Holds(db.State(), Ticket(id, owner, 0), now) {
        return Failure(LeaseLost);
      }
      db.outbox := db.outbox[id := BatchFailedRow(db.outbox[id], error, retrySeconds, started)];
      return Success(());
    }
  }

  class DurableDelivery {
    const db: Database
    const policy: Policy

    constructor (db: Database, policy: Policy)
      requires ValidPolicy(policy)
      ensures this.db == db && this.policy == policy
    {
      this.db, this.policy := db, policy;
    }

    /** The constructor's range check, with its error. */
    static method Open(db: Database, policy: Policy) returns (r: Result<DurableDelivery, string>)
      ensures r.Success? <==> 1 <= policy.leaseSeconds <= 3600 && 1 <= policy.maxAttempts <= 100
      ensures r.Success? ==> fresh(r.value) && r.value.db == db && r.value.policy == policy
    {
      if !ValidPolicy(policy) {
        return Failure("invalid delivery policy");
      }
      var delivery := new DurableDelivery(db, policy);
      return Success(delivery);
    }

    method ClaimDelivery(owner: string, now: int, locked: set<Id>) returns (ticket: Option<Ticket>)
      modifies db`outbox
      ensures (db.State(), ticket) == Claim(old(db.State()), policy, owner, now, locked)
    {
      if policy.topics.Keys == {} {
        assert ClaimableSet(db.State(), policy, now, locked) == {};
        return None;
      }
      var candidates := ClaimableSet(db.State(), policy, now, locked);
      if candidates == {} {
        return None;
      }
      var id := Earliest(db.outbox, candidates);
      db.outbox := db.outbox[id := LeasedRow(db.outbox[id], owner, now + policy.leaseSeconds * SECOND)];
      return Some(Ticket(id, owner, db.outbox[id].attempts));
    }

    method FinishDelivery(t: Ticket, error: Option<string>, now: int) returns (r: Result<(), DeliveryError>)
      modifies db`outbox, db`dead
      ensures match Finish(old(db.State()), policy, t, error, now)
              case Success(l) => db.State() == l && r == Success(())
              case Failure(e) => db.State() == old(db.State()) && r == Failure(e)
    {
      if !Holds(db.State(), t, now) {
        return Failure(LeaseLost);
      }
      db.outbox := db.outbox[t.id := FinishedRow(db.outbox[t.id], t.attempts, error, now)];
      if IsError(error) && t.attempts >= policy.maxAttempts {
        db.Bury(t.id, error.value, now);
      }
      return Success(());
    }

    /** The first loop: dead letters for rows out of attempts. */
    method BuryExhausted(now: int, locked: set<Id>)
      modifies db`dead
      ensures db.State() == Sweep(old(db.State()), policy, ExhaustedSet(old(db.State()), policy, now, locked), {}, now)
    {
      ghost var l := db.State();
      var exhausted := ExhaustedSet(db.State(), policy, now, locked);
      var todo := exhausted;
      ghost var done := {};
      SweepNothing(l, policy, now);
      while todo != {}
        invariant done + todo == exhausted
        invariant db.State() == Sweep(l, policy, done, {}, now)
      {
        var id :| id in todo;
        SweepExhausted(l, policy, done, id, now);
        db.Bury(id, EXHAUSTED_CODE, now);
        done, todo := done + {id}, todo - {id};
      }
      assert done == exhausted;
    }

    /** One row of the loop: dead-lettered when its attempts are spent, else pending again. */
    method SweepRow(id: Id, now: int, ghost l: Ledger, ghost exhausted: set<Id>, ghost done: set<Id>)
      returns (requeued: bool)
      requires done <= l.outbox.Keys && id in l.outbox && id !in done && id !in exhausted
      requires db.State() == Sweep(l, policy, exhausted, done, now)
      modifies db`outbox, db`dead
      ensures db.State() == Sweep(l, policy, exhausted, done + {id}, now)
      ensures |Retriable(l, policy, done + {id})| == |Retriable(l, policy, done)| + (if requeued then 1 else 0)
    {
      SweepOverdue(l, policy, exhausted, done, id, now);
      assert db.State().outbox[id] == l.outbox[id];
      requeued := db.outbox[id].attempts < policy.maxAttempts;
      if requeued {
        db.Requeue(id);
      } else {
        db.Bury(id, UNACKNOWLEDGED_CODE, now);
      }
    }

    /** The inner loop: bury or requeue each selected row.  `l` is the ledger before the
        transaction and `swept` the rows already dealt with. */
    method SweepRows(selected: set<Id>, now: int, ghost l: Ledger, ghost exhausted: set<Id>, ghost swept: set<Id>)
      returns (count: nat)
      requires swept + selected <= l.outbox.Keys && selected !! swept && selected !! exhausted
      requires db.State() == Sweep(l, policy, exhausted, swept, now)
      modifies db`outbox, db`dead
      ensures db.State() == Sweep(l, policy, exhausted, swept + selected, now)
      ensures count == |Retriable(l, policy, swept + selected)| - |Retriable(l, policy, swept)|
    {
      count := 0;
      var rows := selected;
      ghost var done, all := swept, swept + selected;
      while rows != {}
        invariant forall x | x in rows :: x in selected && x !in done
        invariant forall x :: x in all <==> x in done || x in rows
        invariant db.State() == Sweep(l, policy, exhausted, done, now)
        invariant |Retriable(l, policy, swept)| + count == |Retriable(l, policy, done)|
        decreases rows
      {
        var id :| id in rows;
        var requeued := SweepRow(id, now, l, exhausted, done);
        count := if requeued then count + 1 else count;
        done, rows := done + {id}, rows - {id};
      }
      assert done == all;
    }

    /** The exhausted rows and the overdue rows of the topics `done` are dealt with, and
        `count` of them were requeued. */
    ghost predicate SweptTopics(l: Ledger, now: int, locked: set<Id>, done: set<string>, count: nat)
      reads db
    {
      && db.State() == Sweep(l, policy, ExhaustedSet(l, policy, now, locked), OverdueIn(l, policy, now, locked, done), now)
      && count == |Retriable(l, policy, OverdueIn(l, policy, now, locked, done))|
    }

    /** The topic's statement and its loop over the selected rows. */
    method SweepTopic(topic: string, now: int, locked: set<Id>, ghost l: Ledger, ghost before: set<string>)
      returns (count: nat)
      requires topic in policy.topics && policy.topics[topic].Some? && topic !in before
      requires db.State()
               == Sweep(l, policy, ExhaustedSet(l, policy, now, locked), OverdueIn(l, policy, now, locked, before), now)
      modifies db`outbox, db`dead
      ensures db.State()
               == Sweep(l, policy, ExhaustedSet(l, policy, now, locked), OverdueIn(l, policy, now, locked, before + {topic}), now)
      ensures count == |Retriable(l, policy, OverdueIn(l, policy, now, locked, before + {topic}))|
                       - |Retriable(l, policy, OverdueIn(l, policy, now, locked, before))|
    {
      TopicRows(l, policy, now, locked, before, topic);
      OverdueSplits(l, policy, now, locked, before, topic);
      OverdueNotExhausted(l, policy, now, locked);
      var rows := set id | id in db.outbox.Keys && id !in locked && Unacknowledged(db.State(), policy, now, topic, id);
      count := SweepRows(rows, now, l, ExhaustedSet(l, policy, now, locked), OverdueIn(l, policy, now, locked, before));
    }

    /** A hint, which has no acknowledgement, is passed over.  The topics `before` came earlier
        and made `soFar` rows pending. */
    method ReconcileTopic(topic: string, now: int, locked: set<Id>, ghost l: Ledger,
                          ghost before: set<string>, soFar: nat)
      returns (count: nat)
      requires topic in policy.topics && topic !in before
      requires SweptTopics(l, now, locked, before, soFar)
      modifies db`outbox, db`dead
      ensures SweptTopics(l, now, locked, before + {topic}, count)
    {
      if policy.topics[topic].None? {
        OverdueSplits(l, policy, now, locked, before, topic);
        assert OverdueIn(l, policy, now, locked, before + {topic}) == OverdueIn(l, policy, now, locked, before);
        return soFar;
      }
      var n := SweepTopic(topic, now, locked, l, before);
      count := soFar + n;
    }

    /** One transaction; each topic is selected after the changes made for the topics before
        it. */
    method Reconcile(now: int, locked: set<Id>) returns (count: nat)
      modifies db`outbox, db`dead
      ensures db.State() == Publisher.Reconcile(old(db.State()), policy, now, locked)
      ensures count == ReconcileCount(old(db.State()), policy, now, locked)
    {
      ghost var l := db.State();
      BuryExhausted(now, locked);
      assert OverdueIn(l, policy, now, locked, {}) == {};
      count := ReconcileTopics(now, locked, l);
      assert OverdueIn(l, policy, now, locked, policy.topics.Keys) == OverdueSet(l, policy, now, locked);
    }

    /** The loop over the policy's topics. */
    method ReconcileTopics(now: int, locked: set<Id>, ghost l: Ledger) returns (count: nat)
      requires SweptTopics(l, now, locked, {}, 0)
      modifies db`outbox, db`dead
      ensures SweptTopics(l, now, locked, policy.topics.Keys, count)
    {
      count := 0;
      var topics := policy.topics.Keys;
      ghost var done := {};
      while topics != {}
        invariant forall t | t in topics :: t in policy.topics && t !in done
        invariant forall t :: t in policy.topics.Keys <==> t in done || t in topics
        invariant SweptTopics(l, now, locked, done, count)
        decreases topics
      {
        var topic :| topic in topics;
        count := ReconcileTopic(topic, now, locked, l, done, count);
        done, topics := done + {topic}, topics - {topic};
      }
      assert done == policy.topics.Keys;
    }

    method Replay(id: Id, now: int) returns (r: Result<(), DeliveryError>)
      modifies db`outbox, db`dead
      ensures match Publisher.Replay(old(db.State()), policy, id, now)
              case Success(l) => db.State() == l && r == Success(())
              case Failure(e) => db.State() == old(db.State()) && r == Failure(e)
    {
      if id !in db.outbox || db.outbox[id].intent.topic !in policy.topics {
        return Failure(OutsidePolicy);
      }
      if !IsDead(db.State(), id) {
        return Failure(NotDeadLettered);
      }
      db.dead := db.dead[id := db.dead[id].(replayedAt := Some(now))];
      db.outbox := db.outbox[id := ReplayedRow(db.outbox[id])];
      return Success(());
    }
  }

  /** DurableTasks: the consumer side.  claim_execution is its two statements, which other
      transactions may come between. */
  class DurableTasks {
    const db: Database
    const policy: Policy

    constructor (db: Database, policy: Policy)
      requires ValidPolicy(policy)
      ensures this.db == db && this.policy == policy
    {
      this.db, this.policy := db, policy;
    }

    method ReadMessage(id: Id, now: int) returns (row: Option<Message>)
      ensures row.Some? <==> Eligible(db.State(), policy, now, id)
      ensures row.Some? ==> row.value == db.outbox[id]
    {
      if id in db.outbox {
        var m := db.outbox[id];
        if m.intent.topic in policy.topics && Due(m.intent, now)
           && Receipt(m.intent.topic, id) !in db.inbox && !(id in db.dead && db.dead[id].replayedAt.None?) {
          return Some(m);
        }
      }
      return None;
    }

    /** `intent` comes from the earlier read. */
    method AcquireLease(id: Id, intent: Intent, newOwner: Uuid, now: int) returns (lease: Option<ConsumerLease>)
      requires id in db.outbox && db.outbox[id].intent == intent
      modifies db`executions
      ensures (db.State(), lease) == Acquire(old(db.State()), policy, id, newOwner, now)
    {
      var resource := ResourceKey(intent.topic, intent.key);
      var epoch := 1;
      if resource in db.executions {
        if !Reached(db.executions[resource].expires, now) {
          return None;
        }
        epoch := db.executions[resource].epoch + 1;
      }
      db.executions := db.executions[resource := Execution(id, newOwner, epoch, At(now + policy.leaseSeconds * SECOND))];
      if Receipt(intent.topic, id) in db.inbox {
        db.executions := db.executions[resource := db.executions[resource].(expires := NegInf)];
        assert db.executions == old(db.executions)[resource := Execution(id, newOwner, epoch, NegInf)];
        return None;
      }
      return Some(ConsumerLease(resource, id, newOwner, epoch));
    }

    method ClaimExecution(id: Id, newOwner: Uuid, readAt: int,
                          now: int) returns (claimed: Option<(ConsumerLease, Message)>)
      modifies db`executions
      ensures !Eligible(old(db.State()), policy, readAt, id) ==> claimed == None && db.State() == old(db.State())
      ensures id in old(db.dead) && old(db.dead)[id].replayedAt.None? ==> claimed == None && db.State() == old(db.State())
      ensures Eligible(old(db.State()), policy, readAt, id) ==>
                var (l, lease) := Acquire(old(db.State()), policy, id, newOwner, now);
                db.State() == l
                && claimed == if lease.Some? then Some((lease.value, old(db.outbox)[id])) else None
    {
      var row := ReadMessage(id, readAt);
      if row.None? {
        return None;
      }
      var lease := AcquireLease(id, row.value.intent, newOwner, now);
      if lease.None? {
        return None;
      }
      return Some((lease.value, row.value));
    }

    /** CHECK_LEASE: the first check of execute and the guard of every commit. */
    method CheckLease(lease: ConsumerLease, now: int) returns (ok: bool)
      ensures ok <==> Current(db.State(), lease, now)
    {
      if lease.resource !in db.executions {
        return false;
      }
      var row := db.executions[lease.resource];
      return Matches(row, lease) && !Reached(row.expires, now);
    }

    method Renew(lease: ConsumerLease, now: int) returns (r: Result<(), DeliveryError>)
      modifies db`executions
      ensures match Consumer.Renew(old(db.State()), policy, lease, now)
              case Success(l) => db.State() == l && r == Success(())
              case Failure(e) => db.State() == old(db.State()) && r == Failure(e)
    {
      var ok := CheckLease(lease, now);
      if !ok {
        return Failure(LeaseLost);
      }
      var row := db.executions[lease.resource];
      db.executions := db.executions[lease.resource := row.(expires := At(now + policy.leaseSeconds * SECOND))];
      return Success(());
    }

    method Release(lease: ConsumerLease)
      modifies db`executions
      ensures db.State() == Consumer.Release(old(db.State()), lease)
    {
      if lease.resource in db.executions && Matches(db.executions[lease.resource], lease) {
        var row := db.executions[lease.resource];
        db.executions := db.executions[lease.resource := row.(expires := NegInf)];
      }
    }

    /** The end of execute: the receipt, then the commit, which the guard may refuse and so
        undo.  Whether the receipt was new does not matter to it. */
    method CommitWithReceipt(repository: OutboxRepository, lease: ConsumerLease, topic: string, now: int)
      returns (r: Result<(), DeliveryError>)
      requires repository.db == db
      modifies db`inbox
      ensures !(1 <= |topic| <= 128) ==> r == Failure(InvalidConsumer) && db.State() == old(db.State())
      ensures 1 <= |topic| <= 128 ==>
              match CommitFinal(old(db.State()), lease, topic, now)
              case Success(l) => db.State() == l && r == Success(())
              case Failure(e) => db.State() == old(db.State()) && r == Failure(e)
    {
      var before := db.inbox;
      var isNew := repository.ClaimInboxOnce(topic, lease.message, now);
      if isNew.Failure? {
        return Failure(InvalidConsumer);
      }
      var ok := CheckLease(lease, now);
      if !ok {
        db.inbox := before;
        return Failure(LeaseLost);
      }
      return Success(());
    }
  }
}
