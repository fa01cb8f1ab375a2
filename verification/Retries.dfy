/** How often a message is claimed. */
module Retries {
  import opened Wrappers
  import opened Clock
  import opened Schema
  import opened Intents
  import opened Publisher
  import opened Sweeping
  import opened Protocol
  import opened Publishing

  /** claim_delivery does not look at max_attempts.  Its claim goes over the bound exactly
      when it takes a row whose delivery lapsed with no attempt left, which is a row that a
      reconcile at the same clock would have buried first. */
  lemma OverrunsExactlyWhenExhausted(l: Ledger, p: Policy, owner: string, now: int, locked: set<Id>)
    requires SpentAreDead(l, p)
    ensures var t := Claim(l, p, owner, now, locked).1;
            t.Some? ==> (t.value.attempts > p.maxAttempts
                         <==> l.outbox[t.value.id].status.Delivering? && l.outbox[t.value.id].attempts >= p.maxAttempts)
                        && (t.value.attempts > p.maxAttempts <==> Exhausted(l, p, now, t.value.id))
  {
  }

  // ----- The retry bound -----

  /** The latest reading, since the message was last claimed, of a reconcile that did not skip
      its row. */
  function Swept(w: World, p: Policy, steps: seq<Step>, id: Id): Instant {
    if steps == [] then NegInf else
      var before := steps[..|steps| - 1];
      NextSwept(Run(w, p, before), p, steps[|steps| - 1], id, Swept(w, p, before, id))
  }

  function NextSwept(w: World, p: Policy, s: Step, id: Id, swept: Instant): Instant {
    if ClaimsIt(w, p, s, id) then NegInf
    else if s.ReconcileStep? && id !in s.locked then Later(swept, At(s.now))
    else swept
  }

  /** A claim takes the message over from a lapsed lease only if a reconcile saw that lease
      lapsed: the lease did not end between the reconcile and the claim. */
  predicate CalmStep(w: World, p: Policy, s: Step, id: Id, swept: Instant) {
    ClaimsIt(w, p, s, id) && w.ledger.outbox[id].leaseExpires.Some? ==>
      swept.At? && w.ledger.outbox[id].leaseExpires.value <= swept.ticks
  }

  predicate Calm(w: World, p: Policy, steps: seq<Step>, id: Id) {
    steps == []
    || var before := steps[..|steps| - 1];
       Calm(w, p, before, id) && CalmStep(Run(w, p, before), p, steps[|steps| - 1], id, Swept(w, p, before, id))
  }

  /** Within the bound; and a registered delivery with no attempt left outlives every
      reconcile that has seen it. */
  predicate Within(l: Ledger, p: Policy, swept: Instant, id: Id) {
    id in l.outbox ==>
      var m := l.outbox[id];
      && m.attempts <= p.maxAttempts
      && (m.intent.topic in p.topics && m.status.Delivering? && m.attempts >= p.maxAttempts && !IsDead(l, id)
          && swept.At? && m.leaseExpires.Some? ==>
            m.leaseExpires.value > swept.ticks)
  }

  lemma ClaimIsWithin(w: World, p: Policy, s: Step, swept: Instant, id: Id)
    requires PubInv(w, p) && s.ClaimStep? && Within(w.ledger, p, swept, id) && CalmStep(w, p, s, id, swept)
    ensures Within(ClaimWorld(w, p, s.owner, s.now, s.locked).ledger, p, NextSwept(w, p, s, id, swept), id)
  {
    if ClaimsIt(w, p, s, id) {
      assert Claimable(w.ledger, p, s.now, id) && RowShaped(w.ledger.outbox[id]);
      assert w.ledger.outbox[id].attempts < p.maxAttempts;
    }
  }

  lemma ReconcileIsWithin(w: World, p: Policy, s: Step, swept: Instant, id: Id)
    requires s.ReconcileStep? && Within(w.ledger, p, swept, id)
    ensures Within(Publisher.Reconcile(w.ledger, p, s.now, s.locked), p, NextSwept(w, p, s, id, swept), id)
  {
    if id in w.ledger.outbox {
      ReconcileTouches(w.ledger, p, s.now, s.locked, id);
    }
  }

  lemma FinishIsWithin(l: Ledger, p: Policy, t: Ticket, error: Option<string>, now: int, swept: Instant, id: Id)
    requires Within(l, p, swept, id)
    ensures var r := Finish(l, p, t, error, now); r.Success? ==> Within(r.value, p, swept, id)
  {
  }

  lemma ReplayIsWithin(l: Ledger, p: Policy, other: Id, now: int, swept: Instant, id: Id)
    requires Within(l, p, swept, id)
    ensures var r := Publisher.Replay(l, p, other, now); r.Success? ==> Within(r.value, p, swept, id)
  {
  }

  lemma EnqueueIsWithin(w: World, p: Policy, e: Event, newId: Id, now: int, swept: Instant, id: Id)
    requires PubInv(w, p) && Within(w.ledger, p, swept, id)
    ensures Within(EnqueueWorld(w, e, newId, now).ledger, p, swept, id)
  {
    EnqueueInsertsOrKeeps(w, e, newId, now);
  }

  lemma StepIsWithin(w: World, p: Policy, s: Step, swept: Instant, id: Id)
    requires PubInv(w, p) && Durable(s) && Within(w.ledger, p, swept, id) && CalmStep(w, p, s, id, swept)
    ensures Within(Apply(w, p, s).ledger, p, NextSwept(w, p, s, id, swept), id)
  {
    if s.EnqueueStep? {
      EnqueueIsWithin(w, p, s.event, s.newId, s.now, swept, id);
    } else if IsPublisher(s) {
      match s
      case ClaimStep(_, _, _) => ClaimIsWithin(w, p, s, swept, id);
      case FinishStep(owner, error, now) =>
        if owner in w.tickets {
          FinishIsWithin(w.ledger, p, w.tickets[owner], error, now, swept, id);
        }
      case ReconcileStep(_, _) => ReconcileIsWithin(w, p, s, swept, id);
      case ReplayStep(other, now) => ReplayIsWithin(w.ledger, p, other, now, swept, id);
    } else {
      ConsumerMoves(w, p, s);
    }
  }

  lemma {:induction false} RunIsWithin(w: World, p: Policy, steps: seq<Step>, id: Id)
    requires PubInv(w, p) && Within(w.ledger, p, NegInf, id)
    requires AllDurable(steps) && NewOwners(w, p, steps) && Calm(w, p, steps, id)
    ensures Within(Run(w, p, steps).ledger, p, Swept(w, p, steps, id), id)
  {
    if steps != [] {
      var before := steps[..|steps| - 1];
      RunKeepsPub(w, p, before);
      RunIsWithin(w, p, before, id);
      StepIsWithin(Run(w, p, before), p, steps[|steps| - 1], Swept(w, p, before, id), id);
    }
  }

  /** Bounded retry: in runs where the message's own lease never ends between a reconcile and
      the claim that takes it over, the message is claimed at most max_attempts times between
      its enqueue or a replay and the next replay, whatever mix of lost messages, publish
      errors and crashes occurs, at any clock, and whatever happens to other messages. */
  lemma BoundedRetry(p: Policy, steps: seq<Step>, id: Id)
    requires ValidPolicy(p) && AllDurable(steps) && NewOwners(START, p, steps) && Calm(START, p, steps, id)
    ensures var w := Run(START, p, steps);
            id in w.ledger.outbox ==> id in w.claims && w.claims[id] <= p.maxAttempts
  {
    StartIsPub(p);
    RunKeepsPub(START, p, steps);
    RunIsWithin(START, p, steps, id);
    var w := Run(START, p, steps);
    if id in w.ledger.outbox {
      assert id in w.claims.Keys;
    }
  }
}
