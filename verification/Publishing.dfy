/** Publishers over whole runs: the row invariant and the fencing of finishes. */
module Publishing {
  import opened Wrappers
  import opened Schema
  import opened Intents
  import opened Publisher
  import opened Protocol

  // ----- The row invariant -----

  predicate RowShaped(m: Message) {
    && (m.status.Delivering? <==> m.leaseOwner.Some?)
    && (m.leaseOwner.Some? <==> m.leaseExpires.Some?)
    && (m.status.Published? ==> m.publishedAt.Some?)
  }

  /** Delivering exactly while a lease is recorded; published only with a time. */
  ghost predicate RowsShaped(l: Ledger) {
    forall id | id in l.outbox :: RowShaped(l.outbox[id])
  }

  /** A pending message out of attempts is in the dead-letter journal. */
  ghost predicate SpentAreDead(l: Ledger, p: Policy) {
    forall id | id in l.outbox && l.outbox[id].status.Pending? && l.outbox[id].attempts >= p.maxAttempts :: IsDead(l, id)
  }

  /** While a ticket's owner is on the row, the row is that ticket's delivery: the attempt
      count the ticket carries into the backoff and the dead-letter decision is the row's. */
  ghost predicate TicketsTrue(w: World) {
    forall o | o in w.tickets ::
      && w.tickets[o].owner == o
      && w.tickets[o].id in w.ledger.outbox
      && (w.ledger.outbox[w.tickets[o].id].leaseOwner == Some(o) ==>
            w.ledger.outbox[w.tickets[o].id].attempts == w.tickets[o].attempts)
  }

  /** The attempt count is the number of publisher claims since enqueue or replay. */
  ghost predicate ClaimsCounted(w: World) {
    && w.claims.Keys == w.ledger.outbox.Keys
    && forall id | id in w.claims :: w.claims[id] == w.ledger.outbox[id].attempts
  }

  ghost predicate PubInv(w: World, p: Policy) {
    && ValidPolicy(p) && Indexed(w.ledger)
    && RowsShaped(w.ledger) && SpentAreDead(w.ledger, p)
    && TicketsTrue(w) && ClaimsCounted(w)
  }

  // ----- Each step keeps it -----

  lemma ClaimKeepsRows(w: World, p: Policy, owner: string, now: int, locked: set<Id>)
    requires RowsShaped(w.ledger) && SpentAreDead(w.ledger, p)
    ensures var w' := ClaimWorld(w, p, owner, now, locked);
            RowsShaped(w'.ledger) && SpentAreDead(w'.ledger, p)
  {
  }

  lemma ClaimKeepsTickets(w: World, p: Policy, owner: string, now: int, locked: set<Id>)
    requires TicketsTrue(w) && ClaimsCounted(w) && owner !in w.tickets
    ensures var w' := ClaimWorld(w, p, owner, now, locked);
            TicketsTrue(w') && ClaimsCounted(w')
  {
  }

  lemma FinishKeepsRows(l: Ledger, p: Policy, t: Ticket, error: Option<string>, now: int)
    requires RowsShaped(l) && SpentAreDead(l, p) && error != Some("")
    requires t.id in l.outbox && (l.outbox[t.id].leaseOwner == Some(t.owner) ==> l.outbox[t.id].attempts == t.attempts)
    ensures var r := Finish(l, p, t, error, now);
            r.Success? ==> RowsShaped(r.value) && SpentAreDead(r.value, p)
  {
    assert RowShaped(FinishedRow(l.outbox[t.id], t.attempts, error, now));
  }

  lemma ReconcileKeepsRows(l: Ledger, p: Policy, now: int, locked: set<Id>)
    requires RowsShaped(l) && SpentAreDead(l, p)
    ensures RowsShaped(Publisher.Reconcile(l, p, now, locked)) && SpentAreDead(Publisher.Reconcile(l, p, now, locked), p)
  {
  }

  lemma ReplayKeepsRows(l: Ledger, p: Policy, id: Id, now: int)
    requires RowsShaped(l) && SpentAreDead(l, p) && ValidPolicy(p)
    ensures var r := Publisher.Replay(l, p, id, now);
            r.Success? ==> RowsShaped(r.value) && SpentAreDead(r.value, p)
  {
  }

  /** Attempts unchanged, and no new owner, on every row. */
  ghost predicate LeasesOnlyEnd(l: Ledger, l': Ledger) {
    forall id | id in l.outbox ::
      id in l'.outbox && l'.outbox[id].attempts == l.outbox[id].attempts
      && (l'.outbox[id].leaseOwner == l.outbox[id].leaseOwner || l'.outbox[id].leaseOwner == None)
  }

  lemma LeasesOnlyEndKeepsTickets(w: World, w': World)
    requires TicketsTrue(w) && w'.tickets == w.tickets && LeasesOnlyEnd(w.ledger, w'.ledger)
    ensures TicketsTrue(w')
  {
  }

  lemma FinishEndsOnly(l: Ledger, p: Policy, t: Ticket, error: Option<string>, now: int)
    ensures var r := Finish(l, p, t, error, now);
            r.Success? ==> LeasesOnlyEnd(l, r.value) && r.value.outbox.Keys == l.outbox.Keys
  {
  }

  lemma FinishKeeps(w: World, p: Policy, owner: string, error: Option<string>, now: int)
    requires PubInv(w, p) && owner in w.tickets && error != Some("")
    ensures var w' := Store(w, Finish(w.ledger, p, w.tickets[owner], error, now));
            RowsShaped(w'.ledger) && SpentAreDead(w'.ledger, p) && TicketsTrue(w') && ClaimsCounted(w')
  {
    var w' := Store(w, Finish(w.ledger, p, w.tickets[owner], error, now));
    FinishKeepsRows(w.ledger, p, w.tickets[owner], error, now);
    FinishEndsOnly(w.ledger, p, w.tickets[owner], error, now);
    LeasesOnlyEndKeepsTickets(w, w');
  }

  lemma ReconcileKeeps(w: World, p: Policy, now: int, locked: set<Id>)
    requires PubInv(w, p)
    ensures var w' := PublisherWorld(w, p, ReconcileStep(now, locked));
            RowsShaped(w'.ledger) && SpentAreDead(w'.ledger, p) && TicketsTrue(w') && ClaimsCounted(w')
  {
    var w' := PublisherWorld(w, p, ReconcileStep(now, locked));
    ReconcileKeepsRows(w.ledger, p, now, locked);
    assert LeasesOnlyEnd(w.ledger, w'.ledger);
    LeasesOnlyEndKeepsTickets(w, w');
  }

  lemma ReplayKeeps(w: World, p: Policy, id: Id, now: int)
    requires PubInv(w, p)
    ensures var w' := ReplayWorld(w, p, id, now);
            RowsShaped(w'.ledger) && SpentAreDead(w'.ledger, p) && TicketsTrue(w') && ClaimsCounted(w')
  {
    ReplayKeepsRows(w.ledger, p, id, now);
  }

  lemma InsertKeepsRows(w: World, p: Policy, id: Id, m: Message)
    requires PubInv(w, p) && id !in w.ledger.outbox
    requires m.status.Pending? && m.attempts == 0 && RowShaped(m)
    ensures var w' := w.(ledger := Insert(w.ledger, id, m), claims := w.claims[id := 0]);
            RowsShaped(w'.ledger) && SpentAreDead(w'.ledger, p) && TicketsTrue(w') && ClaimsCounted(w')
  {
  }

  /** A new row, or nothing. */
  lemma EnqueueInsertsOrKeeps(w: World, e: Event, newId: Id, now: int)
    requires Indexed(w.ledger) && ClaimsCounted(w)
    ensures var w' := EnqueueWorld(w, e, newId, now);
            || w' == w
            || (newId !in w.ledger.outbox && e.deduplicationKey !in w.ledger.byKey && ValidEvent(e)
                && w' == w.(ledger := Insert(w.ledger, newId, NewMessage(e, now)), claims := w.claims[newId := 0]))
  {
  }

  lemma EnqueueKeepsRows(w: World, p: Policy, e: Event, newId: Id, now: int)
    requires PubInv(w, p)
    ensures var w' := EnqueueWorld(w, e, newId, now);
            RowsShaped(w'.ledger) && SpentAreDead(w'.ledger, p) && TicketsTrue(w') && ClaimsCounted(w')
  {
    EnqueueInsertsOrKeeps(w, e, newId, now);
    if newId !in w.ledger.outbox {
      InsertKeepsRows(w, p, newId, NewMessage(e, now));
    }
  }

  lemma StepKeepsPub(w: World, p: Policy, s: Step)
    requires PubInv(w, p) && Durable(s) && NewOwner(w, s)
    ensures PubInv(Apply(w, p, s), p)
  {
    StepExtends(w, p, s);
    if s.EnqueueStep? {
      EnqueueKeepsRows(w, p, s.event, s.newId, s.now);
    } else if IsPublisher(s) {
      match s
      case ClaimStep(owner, now, locked) =>
        ClaimKeepsRows(w, p, owner, now, locked);
        ClaimKeepsTickets(w, p, owner, now, locked);
      case FinishStep(owner, error, now) =>
        if owner in w.tickets {
          FinishKeeps(w, p, owner, error, now);
        }
      case ReconcileStep(now, locked) => ReconcileKeeps(w, p, now, locked);
      case ReplayStep(id, now) => ReplayKeeps(w, p, id, now);
    } else {
      ConsumerMoves(w, p, s);
    }
  }

  lemma StartIsPub(p: Policy)
    requires ValidPolicy(p)
    ensures PubInv(START, p)
  {
  }

  ghost predicate AllDurable(steps: seq<Step>) {
    forall i | 0 <= i < |steps| :: Durable(steps[i])
  }

  /** The row invariant holds in every reachable state of the durable path. */
  lemma {:induction false} RunKeepsPub(w: World, p: Policy, steps: seq<Step>)
    requires PubInv(w, p) && AllDurable(steps) && NewOwners(w, p, steps)
    ensures PubInv(Run(w, p, steps), p)
  {
    if steps != [] {
      RunKeepsPub(w, p, steps[..|steps| - 1]);
      StepKeepsPub(Run(w, p, steps[..|steps| - 1]), p, steps[|steps| - 1]);
    }
  }

  // ----- Row shapes alone need no fresh owners, and hold with the batch path -----

  /** No finish with the empty string, which would publish without a time. */
  predicate Careful(s: Step) {
    s.FinishStep? ==> s.error != Some("")
  }

  ghost predicate AllCareful(steps: seq<Step>) {
    forall i | 0 <= i < |steps| :: Careful(steps[i])
  }

  lemma StepKeepsShapes(w: World, p: Policy, s: Step)
    requires RowsShaped(w.ledger) && Careful(s)
    ensures RowsShaped(Apply(w, p, s).ledger)
  {
    if s.EnqueueStep? {
      EnqueueShapes(w, s.event, s.newId, s.now);
    } else if IsPublisher(s) {
      PublisherShapes(w, p, s);
    } else if IsBatch(s) {
      BatchShapes(w, s);
    } else {
      ConsumerMoves(w, p, s);
    }
  }

  lemma BatchShapes(w: World, s: Step)
    requires RowsShaped(w.ledger)
    ensures RowsShaped(BatchWorld(w, s).ledger)
  {
  }

  lemma EnqueueShapes(w: World, e: Event, newId: Id, now: int)
    requires RowsShaped(w.ledger)
    ensures RowsShaped(EnqueueWorld(w, e, newId, now).ledger)
  {
    assert RowShaped(NewMessage(e, now));
  }

  lemma PublisherShapes(w: World, p: Policy, s: Step)
    requires RowsShaped(w.ledger) && Careful(s)
    ensures RowsShaped(PublisherWorld(w, p, s).ledger)
  {
  }

  lemma {:induction false} RunKeepsShapes(w: World, p: Policy, steps: seq<Step>)
    requires RowsShaped(w.ledger) && AllCareful(steps)
    ensures RowsShaped(Run(w, p, steps).ledger)
  {
    if steps != [] {
      RunKeepsShapes(w, p, steps[..|steps| - 1]);
      StepKeepsShapes(Run(w, p, steps[..|steps| - 1]), p, steps[|steps| - 1]);
    }
  }

  // ----- Publisher fencing -----

  /** The ticket's owner is no longer on the row. */
  predicate Spent(l: Ledger, t: Ticket) {
    t.id in l.outbox && l.outbox[t.id].leaseOwner != Some(t.owner)
  }

  /** A finish, a replay, and a claim by anyone else spend the ticket. */
  lemma SpendsTicket(l: Ledger, p: Policy, t: Ticket, error: Option<string>, owner: string, now: int, locked: set<Id>)
    requires t.id in l.outbox
    ensures var r := Finish(l, p, t, error, now); r.Success? ==> Spent(r.value, t)
    ensures var r := Publisher.Replay(l, p, t.id, now); r.Success? ==> Spent(r.value, t)
    ensures var (l', t') := Claim(l, p, owner, now, locked);
            t'.Some? && t'.value.id == t.id && owner != t.owner ==> Spent(l', t)
  {
  }

  lemma BatchKeepsSpent(w: World, s: Step, t: Ticket)
    requires Spent(w.ledger, t) && (s.BatchClaimStep? ==> s.owner != t.owner)
    ensures Spent(BatchWorld(w, s).ledger, t)
  {
  }

  lemma StepKeepsSpent(w: World, p: Policy, s: Step, t: Ticket)
    requires Spent(w.ledger, t) && t.owner in w.tickets && NewOwner(w, s)
    ensures Spent(Apply(w, p, s).ledger, t) && t.owner in Apply(w, p, s).tickets
  {
    if s.EnqueueStep? {
      EnqueueInserts(w, s.event, s.newId, s.now);
    } else if IsBatch(s) {
      BatchKeepsSpent(w, s, t);
    } else if s.FinishStep? {
      if s.owner in w.tickets {
        FinishEndsOnly(w.ledger, p, w.tickets[s.owner], s.error, s.now);
      }
    } else if !IsPublisher(s) {
      ConsumerMoves(w, p, s);
    }
  }

  lemma EnqueueInserts(w: World, e: Event, newId: Id, now: int)
    ensures var w' := EnqueueWorld(w, e, newId, now);
            w'.tickets == w.tickets
            && forall id | id in w.ledger.outbox :: id in w'.ledger.outbox && w'.ledger.outbox[id] == w.ledger.outbox[id]
  {
  }

  lemma {:induction false} RunKeepsSpent(w: World, p: Policy, steps: seq<Step>, t: Ticket)
    requires Spent(w.ledger, t) && t.owner in w.tickets && NewOwners(w, p, steps)
    ensures Spent(Run(w, p, steps).ledger, t) && t.owner in Run(w, p, steps).tickets
  {
    if steps != [] {
      RunKeepsSpent(w, p, steps[..|steps| - 1], t);
      StepKeepsSpent(Run(w, p, steps[..|steps| - 1]), p, steps[|steps| - 1], t);
    }
  }

  /** Once a claim has been finished, replayed over or re-claimed, its finish raises and
      changes nothing, after any further run and at any clock. */
  lemma PublisherFencing(w: World, p: Policy, steps: seq<Step>, t: Ticket, error: Option<string>, now: int)
    requires Spent(w.ledger, t) && t.owner in w.tickets && NewOwners(w, p, steps)
    ensures Finish(Run(w, p, steps).ledger, p, t, error, now) == Failure(LeaseLost)
  {
    RunKeepsSpent(w, p, steps, t);
  }
}
