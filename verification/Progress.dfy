/** Nothing is stuck: once every deadline of a message has passed, one reconcile buries it or
    makes it claimable, and those deadlines are never far away. */
module Progress {
  import opened Wrappers
  import opened Clock
  import opened Schema
  import opened Intents
  import opened Publisher
  import opened Sweeping
  import opened Protocol
  import opened Publishing

  /** The clock is past the schedule and past what the row's status waits for: pending, its
      backoff; in delivery, that and the publisher's lease; published, the time allowed for a
      receipt, and any execution.  A published row's own backoff does not matter. */
  predicate Ripe(l: Ledger, p: Policy, now: int, id: Id)
    requires id in l.outbox
  {
    var m := l.outbox[id];
    && Due(m.intent, now)
    && match m.status
       case Pending => Reached(m.availableAt, now)
       case Delivering => Reached(m.availableAt, now) && (m.leaseExpires.Some? ==> m.leaseExpires.value <= now)
       case Published => (m.publishedAt.Some? ==> m.publishedAt.value < now - p.leaseSeconds * SECOND) && !Executing(l, now, id)
  }

  /** A registered message somebody must still complete: receive, or for a hint publish. */
  predicate Outstanding(l: Ledger, p: Policy, id: Id) {
    && id in l.outbox
    && l.outbox[id].intent.topic in p.topics
    && !Complete(l, p, id)
    && !IsDead(l, id)
  }

  lemma NothingIsStuck(l: Ledger, p: Policy, now: int, locked: set<Id>, id: Id)
    requires RowsShaped(l) && Outstanding(l, p, id) && id !in locked && Ripe(l, p, now, id)
    ensures var l' := Publisher.Reconcile(l, p, now, locked);
            IsDead(l', id) || id in ClaimableSet(l', p, now, locked)
    ensures l.outbox[id].attempts >= p.maxAttempts ==> IsDead(Publisher.Reconcile(l, p, now, locked), id)
  {
    assert RowShaped(l.outbox[id]);
    if l.outbox[id].status.Published? {
      assert Overdue(l, p, now, id);
    }
  }

  // ----- Deadlines are never far from the clock -----

  predicate Near(t: int, high: Instant, distance: int) {
    high.At? && t <= high.ticks + distance
  }

  const LONGEST_BACKOFF := 256 * SECOND

  predicate RowNear(m: Message, p: Policy, high: Instant) {
    match m.status
    case Pending =>
      m.availableAt.At? ==>
        || Near(m.availableAt.ticks, high, LONGEST_BACKOFF)
        || (NOT_BEFORE_HEADER in m.intent.headers && m.intent.headers[NOT_BEFORE_HEADER] == Stamp(m.availableAt.ticks))
    case Delivering =>
      (m.availableAt.At? ==> Near(m.availableAt.ticks, high, 0))
      && (m.leaseExpires.Some? ==> Near(m.leaseExpires.value, high, p.leaseSeconds * SECOND))
    case Published => m.publishedAt.Some? ==> Near(m.publishedAt.value, high, 0)
  }

  ghost predicate RowsNear(l: Ledger, p: Policy, high: Instant) {
    forall id | id in l.outbox :: RowNear(l.outbox[id], p, high)
  }

  ghost predicate ExecutionsNear(l: Ledger, p: Policy, high: Instant) {
    forall k | k in l.executions && l.executions[k].expires.At? ::
      Near(l.executions[k].expires.ticks, high, p.leaseSeconds * SECOND)
  }

  lemma NearLater(l: Ledger, p: Policy, a: Instant, b: Instant)
    requires NotAfter(a, b)
    ensures RowsNear(l, p, a) ==> RowsNear(l, p, b)
    ensures ExecutionsNear(l, p, a) ==> ExecutionsNear(l, p, b)
  {
    if RowsNear(l, p, a) {
      forall id | id in l.outbox
        ensures RowNear(l.outbox[id], p, b)
      {
        assert RowNear(l.outbox[id], p, a);
      }
    }
  }

  lemma PublisherNear(w: World, p: Policy, s: Step)
    requires IsPublisher(s) && Durable(s)
    requires RowsNear(w.ledger, p, Later(w.high, At(s.now)))
    ensures RowsNear(PublisherWorld(w, p, s).ledger, p, Later(w.high, At(s.now)))
  {
    match s
    case ClaimStep(owner, now, locked) =>
    case FinishStep(owner, error, now) =>
      if owner in w.tickets {
        BackoffBounds(w.tickets[owner].attempts);
        FinishNear(w.ledger, p, w.tickets[owner], error, now, Later(w.high, At(now)));
      }
    case ReconcileStep(now, locked) =>
    case ReplayStep(id, now) =>
  }

  lemma FinishNear(l: Ledger, p: Policy, t: Ticket, error: Option<string>, now: int, high: Instant)
    requires RowsNear(l, p, high) && NotAfter(At(now), high) && error != Some("")
    ensures var r := Finish(l, p, t, error, now); r.Success? ==> RowsNear(r.value, p, high)
  {
    BackoffBounds(t.attempts);
    if Holds(l, t, now) {
      assert RowNear(FinishedRow(l.outbox[t.id], t.attempts, error, now), p, high) by {
        assert RowNear(l.outbox[t.id], p, high);
      }
    }
  }

  lemma ConsumerNear(w: World, p: Policy, s: Step, high: Instant)
    requires ExecutionsNear(w.ledger, p, high)
    requires s.AcquireStep? || s.HeartbeatStep? ==> NotAfter(At(s.now), high)
    ensures ExecutionsNear(ConsumerWorld(w, p, s).ledger, p, high)
  {
  }

  ghost predicate AllNear(w: World, p: Policy) {
    Indexed(w.ledger) && RowsNear(w.ledger, p, w.high) && ExecutionsNear(w.ledger, p, w.high)
  }

  lemma EnqueueStaysNear(w: World, p: Policy, e: Event, newId: Id, now: int)
    requires RowsNear(w.ledger, p, w.high)
    ensures RowsNear(EnqueueWorld(w, e, newId, now).ledger, p, w.high)
    ensures EnqueueWorld(w, e, newId, now).ledger.executions == w.ledger.executions
  {
    assert RowNear(NewMessage(e, now), p, w.high);
  }

  lemma MoveStaysNear(w: World, p: Policy, s: Step, high: Instant)
    requires Durable(s) && RowsNear(w.ledger, p, w.high) && ExecutionsNear(w.ledger, p, w.high)
    requires NotAfter(w.high, high) && (IsPublisher(s) ==> high == Later(w.high, At(s.now)))
    requires s.AcquireStep? || s.HeartbeatStep? ==> NotAfter(At(s.now), high)
    ensures RowsNear(Move(w, p, s).ledger, p, high) && ExecutionsNear(Move(w, p, s).ledger, p, high)
  {
    NearLater(w.ledger, p, w.high, high);
    if s.EnqueueStep? {
      EnqueueStaysNear(w, p, s.event, s.newId, s.now);
      NearLater(Move(w, p, s).ledger, p, w.high, high);
    } else if IsPublisher(s) {
      PublisherNear(w, p, s);
      PublisherWorldOnly(w, p, s);
    } else {
      ConsumerMoves(w, p, s);
      ConsumerNear(w, p, s, high);
    }
  }

  lemma {:induction false} RunStaysNear(w: World, p: Policy, steps: seq<Step>)
    requires AllNear(w, p) && AllDurable(steps)
    ensures AllNear(Run(w, p, steps), p)
  {
    if steps != [] {
      var before, s := Run(w, p, steps[..|steps| - 1]), steps[|steps| - 1];
      RunStaysNear(w, p, steps[..|steps| - 1]);
      StepExtends(before, p, s);
      HighIsKept(before, p, s);
      MoveStaysNear(before, p, s, Apply(before, p, s).high);
    }
  }

  /** The longest wait of a row: pending, the longest backoff; in delivery or published, one
      lease. */
  function Patience(m: Message, p: Policy): int {
    if m.status.Pending? then LONGEST_BACKOFF else p.leaseSeconds * SECOND
  }

  predicate Beyond(now: int, high: Instant, distance: int) {
    high.At? ==> now > high.ticks + distance
  }

  lemma RipeBeyondPatience(l: Ledger, p: Policy, high: Instant, now: int, id: Id)
    requires RowsNear(l, p, high) && ExecutionsNear(l, p, high) && id in l.outbox
    requires Due(l.outbox[id].intent, now) && Beyond(now, high, Patience(l.outbox[id], p))
    ensures Ripe(l, p, now, id)
  {
    assert RowNear(l.outbox[id], p, high);
  }

  /** In every reachable state of the durable path: at any clock further past every reading so
      far than the row's status makes it wait (256 seconds if pending, one lease if in delivery
      or published), a scheduled message being due, one reconcile leaves each outstanding
      message in the dead-letter journal or claimable. */
  lemma NeverStuck(p: Policy, steps: seq<Step>, id: Id, now: int, locked: set<Id>)
    requires AllDurable(steps)
    requires Outstanding(Run(START, p, steps).ledger, p, id) && id !in locked
    requires Due(Run(START, p, steps).ledger.outbox[id].intent, now)
    requires Beyond(now, Run(START, p, steps).high, Patience(Run(START, p, steps).ledger.outbox[id], p))
    ensures var l := Publisher.Reconcile(Run(START, p, steps).ledger, p, now, locked);
            IsDead(l, id) || id in ClaimableSet(l, p, now, locked)
  {
    RunKeepsShapes(START, p, steps);
    RunStaysNear(START, p, steps);
    var w := Run(START, p, steps);
    RipeBeyondPatience(w.ledger, p, w.high, now, id);
    NothingIsStuck(w.ledger, p, now, locked, id);
  }
}
