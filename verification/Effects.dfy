/** What each delivery transaction does to the columns of the tables: when it takes effect,
    every column it changes, and that it changes nothing else.  These are the statements the
    rest relies on, in the tables' own terms. */
module Effects {
  import opened Wrappers
  import opened Clock
  import opened Schema
  import opened Intents
  import opened Ordering
  import opened Publisher
  import opened Consumer

  /** An unreplayed entry of the dead-letter journal. */
  predicate OpenLetter(l: Ledger, id: Id) {
    id in l.dead && l.dead[id].replayedAt == None
  }

  predicate Past(deadline: Instant, now: int) {
    match deadline
    case NegInf => true
    case At(ticks) => ticks <= now
  }

  /** The reserved header, if there is one, is a time no later than now. */
  predicate ScheduleCame(m: Message, now: int) {
    NOT_BEFORE_HEADER !in m.intent.headers
    || match m.intent.headers[NOT_BEFORE_HEADER]
       case Stamp(ticks) => ticks <= now
       case Text(_) => false
  }

  /** No publisher has it, or one whose lease ended at or before now. */
  predicate Free(m: Message, now: int) {
    match m.status
    case Pending => true
    case Delivering => m.leaseExpires.Some? && m.leaseExpires.value <= now
    case Published => false
  }

  predicate InOrder(o: map<Id, Message>, a: Id, b: Id)
    requires a in o && b in o
  {
    o[a].createdAt < o[b].createdAt || (o[a].createdAt == o[b].createdAt && a <= b)
  }

  /** Rows the claim may select. */
  predicate Waiting(l: Ledger, p: Policy, now: int, locked: set<Id>, id: Id) {
    && id in l.outbox && id !in locked
    && l.outbox[id].intent.topic in p.topics
    && Past(l.outbox[id].availableAt, now)
    && ScheduleCame(l.outbox[id], now)
    && Free(l.outbox[id], now)
    && !OpenLetter(l, id)
  }

  /** A claim takes the first waiting row, if any is waiting, for exactly one lease. */
  lemma ClaimEffect(l: Ledger, p: Policy, owner: string, now: int, locked: set<Id>)
    ensures var (l', t) := Claim(l, p, owner, now, locked);
            match t
            case None => l' == l && forall id :: !Waiting(l, p, now, locked, id)
            case Some(t) =>
              && Waiting(l, p, now, locked, t.id)
              && (forall id | Waiting(l, p, now, locked, id) :: InOrder(l.outbox, t.id, id))
              && t.owner == owner && t.attempts == l.outbox[t.id].attempts + 1
              && l' == l.(outbox := l.outbox[t.id := l.outbox[t.id].(
                   status := Delivering, leaseOwner := Some(owner),
                   leaseExpires := Some(now + p.leaseSeconds * 1_000_000), attempts := l.outbox[t.id].attempts + 1)])
  {
    var s := ClaimableSet(l, p, now, locked);
    assert forall id :: id in s <==> Waiting(l, p, now, locked, id);
  }

  /** The row is this owner's unexpired delivery. */
  predicate Owned(l: Ledger, id: Id, owner: string, now: int) {
    && id in l.outbox && l.outbox[id].status == Delivering && l.outbox[id].leaseOwner == Some(owner)
    && l.outbox[id].leaseExpires.Some? && now < l.outbox[id].leaseExpires.value
  }

  /** The finish of an owned delivery: without error the row is published now, and with one it
      is pending again (the empty string publishes it without a time).  Either way it waits out
      the backoff, and only an error on the last attempt opens a dead letter. */
  lemma FinishEffect(l: Ledger, p: Policy, t: Ticket, error: Option<string>, now: int)
    ensures match Finish(l, p, t, error, now)
            case Failure(e) => e == LeaseLost && !Owned(l, t.id, t.owner, now)
            case Success(l') =>
              var m := l.outbox[t.id];
              var failed := error != None && error != Some("");
              && Owned(l, t.id, t.owner, now)
              && l'.outbox == l.outbox[t.id := m.(
                   status := if failed then Pending else Published,
                   publishedAt := if error == None then Some(now) else m.publishedAt,
                   leaseOwner := None, leaseExpires := None, lastError := error,
                   availableAt := At(now + BackoffSeconds(t.attempts) * 1_000_000))]
              && l'.byKey == l.byKey && l'.inbox == l.inbox && l'.executions == l.executions
              && (!failed || t.attempts < p.maxAttempts ==> l'.dead == l.dead)
              && (failed && t.attempts >= p.maxAttempts ==>
                    t.id in l'.dead && l'.dead == l.dead[t.id := l'.dead[t.id]]
                    && l'.dead[t.id].failedAt == now && l'.dead[t.id].replayedAt == None
                    && l'.dead[t.id].errorCode <= error.value && |l'.dead[t.id].errorCode| <= 256
                    && (|error.value| <= 256 ==> l'.dead[t.id].errorCode == error.value))
  {
  }

  predicate Busy(l: Ledger, now: int, id: Id) {
    exists k | k in l.executions :: l.executions[k].message == id && l.executions[k].expires.At? && now < l.executions[k].expires.ticks
  }

  /** Free, registered, out of attempts and not in the journal. */
  predicate OutOfAttempts(l: Ledger, p: Policy, now: int, id: Id) {
    && id in l.outbox && l.outbox[id].intent.topic in p.topics
    && l.outbox[id].attempts >= p.maxAttempts && Free(l.outbox[id], now) && !OpenLetter(l, id)
  }

  /** Published more than a lease ago for a consumer that has not answered. */
  predicate Unanswered(l: Ledger, p: Policy, now: int, id: Id) {
    && id in l.outbox && l.outbox[id].intent.topic in p.topics
    && l.outbox[id].status == Published && l.outbox[id].publishedAt.Some?
    && l.outbox[id].publishedAt.value + p.leaseSeconds * 1_000_000 < now
    && (match p.topics[l.outbox[id].intent.topic]
        case None => false
        case Some(consumer) => Receipt(consumer, id) !in l.inbox)
    && !Busy(l, now, id) && !OpenLetter(l, id)
  }

  /** Reconcile, message by message: out of attempts, it is dead-lettered; unanswered, it is
      dead-lettered if out of attempts, and otherwise pending with no wait at all; in every
      other case, or if its row is locked, nothing of it changes. */
  lemma ReconcileEffect(l: Ledger, p: Policy, now: int, locked: set<Id>, id: Id)
    requires id in l.outbox
    ensures var l' := Reconcile(l, p, now, locked);
            && l'.outbox.Keys == l.outbox.Keys
            && l'.byKey == l.byKey && l'.inbox == l.inbox && l'.executions == l.executions
            && (if id !in locked && OutOfAttempts(l, p, now, id) then
                  l'.outbox[id] == l.outbox[id] && id in l'.dead
                  && l'.dead[id] == DeadLetter("delivery_attempts_exhausted", now, None)
                else if id !in locked && Unanswered(l, p, now, id) && l.outbox[id].attempts >= p.maxAttempts then
                  l'.outbox[id] == l.outbox[id] && id in l'.dead
                  && l'.dead[id] == DeadLetter("consumer_unacknowledged", now, None)
                else
                  && (id in l'.dead <==> id in l.dead) && (id in l.dead ==> l'.dead[id] == l.dead[id])
                  && l'.outbox[id] == if id !in locked && Unanswered(l, p, now, id)
                                      then l.outbox[id].(status := Pending, availableAt := NegInf)
                                      else l.outbox[id])
  {
    assert Busy(l, now, id) == Executing(l, now, id);
    assert Exhausted(l, p, now, id) == OutOfAttempts(l, p, now, id);
    assert Overdue(l, p, now, id) == Unanswered(l, p, now, id);
  }

  /** An unanswered message with attempts left is waiting in the reconciled tables at the very
      reading of the reconcile, however far away its old backoff was. */
  lemma RequeuedIsWaiting(l: Ledger, p: Policy, now: int, locked: set<Id>, id: Id)
    requires Unanswered(l, p, now, id) && l.outbox[id].attempts < p.maxAttempts && id !in locked
    ensures Waiting(Reconcile(l, p, now, locked), p, now, locked, id) <==> ScheduleCame(l.outbox[id], now)
  {
    ReconcileEffect(l, p, now, locked, id);
  }

  /** Replay succeeds exactly for a registered message with an open letter: the letter is
      closed and the message starts over, with no wait but its schedule. */
  lemma ReplayEffect(l: Ledger, p: Policy, id: Id, now: int)
    ensures match Replay(l, p, id, now)
            case Failure(_) => !(id in l.outbox && l.outbox[id].intent.topic in p.topics && OpenLetter(l, id))
            case Success(l') =>
              && id in l.outbox && l.outbox[id].intent.topic in p.topics && OpenLetter(l, id)
              && l' == l.(
                   outbox := l.outbox[id := l.outbox[id].(
                     status := Pending, attempts := 0, availableAt := NegInf, lastError := None,
                     leaseOwner := None, leaseExpires := None)],
                   dead := l.dead[id := l.dead[id].(replayedAt := Some(now))])
              && forall later: int :: Waiting(l', p, later, {}, id) <==> ScheduleCame(l.outbox[id], later)
  {
  }

  /** A lower-case letter or digit first, then at most 127 of these, dots, underscores and
      hyphens. */
  predicate TopicPattern(s: string) {
    && 0 < |s| < 129
    && (forall i | 0 <= i < |s| :: 'a' <= s[i] <= 'z' || '0' <= s[i] <= '9' || (i > 0 && s[i] in ".-_"))
  }

  predicate HeaderText(s: string, longest: nat) {
    |s| <= longest && '\n' !in s && '\r' !in s
  }

  lemma TransportCount(e: Event)
    requires NOT_BEFORE_HEADER !in e.headers
    ensures |TransportHeaders(e)| == |e.headers| + (if e.notBefore.Some? then 1 else 0)
  {
    var texts := map k | k in e.headers :: Text(e.headers[k]);
    assert texts.Keys == e.headers.Keys;
    if e.notBefore.Some? {
      assert TransportHeaders(e).Keys == e.headers.Keys + {NOT_BEFORE_HEADER};
    } else {
      assert TransportHeaders(e).Keys == e.headers.Keys;
    }
  }

  /** What a valid event is, with a schedule counting as one header of at most 32. */
  lemma ValidEventMeans(e: Event)
    ensures ValidEvent(e) <==>
            && TopicPattern(e.topic) && 0 < |e.key| < 513 && 0 < |e.deduplicationKey| < 513
            && "sunmoonai.not_before.v1" !in e.headers
            && |e.headers| + (if e.notBefore.Some? then 1 else 0) <= 32
            && forall k | k in e.headers :: 0 < |k| && HeaderText(k, 128) && HeaderText(e.headers[k], 2048)
  {
    TopicMeans(e.topic);
    forall k | k in e.headers
      ensures SingleLine(k) == ('\n' !in k && '\r' !in k)
      ensures SingleLine(e.headers[k]) == ('\n' !in e.headers[k] && '\r' !in e.headers[k])
    {
    }
    if NOT_BEFORE_HEADER !in e.headers {
      TransportCount(e);
    }
  }

  lemma TopicMeans(s: string)
    ensures IsName(s) <==> TopicPattern(s)
  {
    if TopicPattern(s) {
      forall i | 1 <= i < |s|
        ensures NameChar(s[i])
      {
      }
    }
  }

  /** A valid event under a new key becomes one pending row created now, which no claim takes
      before its not-before and which every later claim may. */
  lemma EnqueueEffect(l: Ledger, p: Policy, e: Event, newId: Id, now: int)
    requires ValidEvent(e) && e.deduplicationKey !in l.byKey && newId !in l.outbox && !OpenLetter(l, newId)
    ensures match Enqueue(l, e, newId, now)
            case Failure(_) => false
            case Success((l', id)) =>
              && id == newId && newId in l'.outbox
              && l' == l.(outbox := l.outbox[newId := l'.outbox[newId]], byKey := l.byKey[e.deduplicationKey := newId])
              && (var m := l'.outbox[newId];
                  && m.status == Pending && m.attempts == 0 && m.createdAt == now
                  && m.leaseOwner == None && m.leaseExpires == None && m.publishedAt == None && m.lastError == None
                  && m.deduplicationKey == e.deduplicationKey
                  && m.intent.topic == e.topic && m.intent.key == e.key && m.intent.payload == e.payload)
              && forall later: int :: Waiting(l', p, later, {}, newId)
                   <==> e.topic in p.topics && (e.notBefore == None || e.notBefore.value <= later)
  {
    var l' := Enqueue(l, e, newId, now).value.0;
    assert (NOT_BEFORE_HEADER in TransportHeaders(e)) == e.notBefore.Some?;
    assert l'.outbox[newId].intent.headers == TransportHeaders(e);
  }

  /** Enqueue refuses exactly an invalid event, a key in use for anything else, and an
      identifier that is taken. */
  lemma EnqueueRefuses(l: Ledger, e: Event, newId: Id, now: int)
    requires Indexed(l)
    ensures Enqueue(l, e, newId, now).Failure? <==>
            || !ValidEvent(e)
            || (e.deduplicationKey in l.byKey && l.outbox[l.byKey[e.deduplicationKey]].intent != IntentOf(e))
            || (e.deduplicationKey !in l.byKey && newId in l.outbox)
  {
  }

  // ----- The older lease path -----

  predicate BatchWaiting(l: Ledger, started: int, now: int, locked: set<Id>, id: Id) {
    && id in l.outbox && id !in locked
    && Past(l.outbox[id].availableAt, started) && ScheduleCame(l.outbox[id], now)
    && match l.outbox[id].status
       case Pending => true
       case Delivering => l.outbox[id].leaseExpires.Some? && l.outbox[id].leaseExpires.value < started
       case Published => false
  }

  /** A batch claim takes waiting rows, each once and in order, as many as there are up to the
      limit and none while an earlier one is left, for one lease from the start. */
  lemma ClaimBatchEffect(l: Ledger, owner: string, limit: nat, leaseSeconds: nat, started: int, now: int, locked: set<Id>)
    ensures var l' := ClaimBatch(l, owner, limit, leaseSeconds, started, now, locked);
            var ids := BatchIds(l, limit, started, now, locked);
            && (forall i | 0 <= i < |ids| :: BatchWaiting(l, started, now, locked, ids[i]))
            && (forall i, j | 0 <= i < j < |ids| :: ids[i] != ids[j] && InOrder(l.outbox, ids[i], ids[j]))
            && (forall i, x | 0 <= i < |ids| && BatchWaiting(l, started, now, locked, x) && x !in ids :: InOrder(l.outbox, ids[i], x))
            && |ids| <= limit && ((exists x :: BatchWaiting(l, started, now, locked, x) && x !in ids) ==> |ids| == limit)
            && l' == l.(outbox := l'.outbox) && l'.outbox.Keys == l.outbox.Keys
            && forall id | id in l.outbox ::
                 l'.outbox[id] == if id !in ids then l.outbox[id] else l.outbox[id].(
                   status := Delivering, leaseOwner := Some(owner),
                   leaseExpires := Some(started + leaseSeconds * 1_000_000), attempts := l.outbox[id].attempts + 1)
  {
    var s := BatchSet(l, started, now, locked);
    assert forall id :: id in s <==> BatchWaiting(l, started, now, locked, id);
    TakeIsSorted(l.outbox, s, limit);
    TakeIsAll(l.outbox, s, limit, BatchIds(l, limit, started, now, locked));
  }

  lemma MarkPublishedEffect(l: Ledger, id: Id, owner: string, started: int, now: int)
    ensures match MarkPublished(l, id, owner, started, now)
            case Failure(e) => e == LeaseLost && !Owned(l, id, owner, now)
            case Success(l') =>
              Owned(l, id, owner, now)
              && l' == l.(outbox := l.outbox[id := l.outbox[id].(
                   status := Published, publishedAt := Some(started), leaseOwner := None, leaseExpires := None, lastError := None)])
  {
  }

  lemma MarkFailedEffect(l: Ledger, id: Id, owner: string, code: string, retry: nat, started: int, now: int)
    ensures match MarkFailed(l, id, owner, code, retry, started, now)
            case Failure(_) => !Owned(l, id, owner, now) || code == "" || |code| > 256 || retry == 0 || retry > 86400
            case Success(l') =>
              Owned(l, id, owner, now) && 1 <= |code| <= 256 && 1 <= retry <= 86400
              && l' == l.(outbox := l.outbox[id := l.outbox[id].(
                   status := Pending, availableAt := At(started + retry * 1_000_000),
                   leaseOwner := None, leaseExpires := None, lastError := Some(code))])
  {
  }

  // ----- Consumers -----

  /** The eligibility read finds exactly a registered message whose schedule came, without a
      receipt and without an open letter. */
  lemma EligibleEffect(l: Ledger, p: Policy, now: int, id: Id)
    ensures Eligible(l, p, now, id) <==>
            && id in l.outbox && l.outbox[id].intent.topic in p.topics && ScheduleCame(l.outbox[id], now)
            && Receipt(l.outbox[id].intent.topic, id) !in l.inbox && !OpenLetter(l, id)
  {
  }

  /** The lease is granted exactly when no row or an ended one is there and the receipt is not
      in: the next epoch, for exactly one lease.  With the receipt in, the epoch is used up
      and released. */
  lemma AcquireEffect(l: Ledger, p: Policy, id: Id, owner: Uuid, now: int)
    requires id in l.outbox
    ensures var (l', lease) := Acquire(l, p, id, owner, now);
            var k := l.outbox[id].intent.topic + ":" + l.outbox[id].intent.key;
            var free := k !in l.executions || Past(l.executions[k].expires, now);
            var epoch := if k in l.executions then l.executions[k].epoch + 1 else 1;
            var received := Receipt(l.outbox[id].intent.topic, id) in l.inbox;
            && (!free ==> l' == l && lease == None)
            && (free ==> l' == l.(executions := l.executions[k := Execution(
                  id, owner, epoch, if received then NegInf else At(now + p.leaseSeconds * 1_000_000))]))
            && (free && received ==> lease == None)
            && (free && !received ==> lease == Some(ConsumerLease(k, id, owner, epoch)))
  {
  }

  /** The row is exactly this lease, and its time has not run out. */
  predicate Live(l: Ledger, lease: ConsumerLease, now: int) {
    && lease.resource in l.executions
    && l.executions[lease.resource].message == lease.message && l.executions[lease.resource].owner == lease.owner
    && l.executions[lease.resource].epoch == lease.epoch
    && l.executions[lease.resource].expires.At? && now < l.executions[lease.resource].expires.ticks
  }

  /** The guard, the renewal and the last commit go through exactly for a live lease: a lease
      whose time has run out is refused even if nobody took it over.  A renewal sets exactly
      one lease from now; the commit adds the receipt, and an older receipt keeps its time. */
  lemma GuardEffect(l: Ledger, p: Policy, lease: ConsumerLease, topic: string, now: int)
    ensures Current(l, lease, now) <==> Live(l, lease, now)
    ensures match Consumer.Renew(l, p, lease, now)
            case Failure(_) => !Live(l, lease, now)
            case Success(l') =>
              Live(l, lease, now)
              && l' == l.(executions := l.executions[lease.resource := Execution(
                   lease.message, lease.owner, lease.epoch, At(now + p.leaseSeconds * 1_000_000))])
    ensures match CommitFinal(l, lease, topic, now)
            case Failure(_) => !Live(l, lease, now)
            case Success(l') =>
              var r := Receipt(topic, lease.message);
              Live(l, lease, now) && l' == l.(inbox := if r in l.inbox then l.inbox else l.inbox[r := now])
  {
  }

  /** Release touches only this lease's own row, whose epoch stays. */
  lemma ReleaseEffect(l: Ledger, lease: ConsumerLease)
    ensures var k := lease.resource;
            var own := k in l.executions && l.executions[k].message == lease.message
                       && l.executions[k].owner == lease.owner && l.executions[k].epoch == lease.epoch;
            Consumer.Release(l, lease)
            == if own then l.(executions := l.executions[k := Execution(lease.message, lease.owner, lease.epoch, NegInf)]) else l
  {
  }
}
