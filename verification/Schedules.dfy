/** Not-before over whole runs, on both lease paths and for any clock. */
module Schedules {
  import opened Clock
  import opened Schema
  import opened Intents
  import opened Ordering
  import opened Publisher
  import opened Consumer
  import opened Protocol

  /** Some reading so far reached the schedule. */
  predicate DueBy(intent: Intent, high: Instant) {
    NOT_BEFORE_HEADER in intent.headers ==>
      intent.headers[NOT_BEFORE_HEADER].Stamp? && high.At? && intent.headers[NOT_BEFORE_HEADER].ticks <= high.ticks
  }

  lemma DueByReading(intent: Intent, now: int, high: Instant)
    requires Due(intent, now) && NotAfter(At(now), high)
    ensures DueBy(intent, high)
  {
  }

  predicate BegunDue(l: Ledger, high: Instant, id: Id) {
    id in l.outbox && DueBy(l.outbox[id].intent, high)
  }

  lemma BegunStays(l: Ledger, l': Ledger, high: Instant, high': Instant, id: Id)
    requires BegunDue(l, high, id) && Extends(l, l') && NotAfter(high, high')
    ensures BegunDue(l', high', id)
  {
    assert l'.outbox[id].intent == l.outbox[id].intent;
  }

  /** Everything begun, and every eligibility read, was due; every attempt, receipt and
      execution row was begun. */
  ghost predicate ScheduleInv(w: World) {
    && Indexed(w.ledger)
    && (forall id | id in w.begun :: BegunDue(w.ledger, w.high, id))
    && (forall pid | pid in w.seen :: BegunDue(w.ledger, w.high, w.seen[pid]))
    && Traced(w)
  }

  ghost predicate Traced(w: World) {
    && AttemptsBegun(w.ledger, w.begun)
    && (forall r | r in w.ledger.inbox :: r.message in w.begun)
    && (forall k | k in w.ledger.executions :: w.ledger.executions[k].message in w.begun)
    && (forall pid | pid in w.sessions :: w.sessions[pid].lease.message in w.begun)
  }

  lemma ClaimedIsDue(w: World, p: Policy, owner: string, now: int, locked: set<Id>, id: Id)
    requires id in ClaimWorld(w, p, owner, now, locked).begun && id !in w.begun
    ensures id in w.ledger.outbox && Due(w.ledger.outbox[id].intent, now)
  {
    assert Claimable(w.ledger, p, now, id);
  }

  lemma BatchClaimedIsDue(w: World, s: Step, id: Id)
    requires s.BatchClaimStep? && id in BatchWorld(w, s).begun && id !in w.begun
    ensures id in w.ledger.outbox && Due(w.ledger.outbox[id].intent, s.now)
  {
    TakeIsSorted(w.ledger.outbox, BatchSet(w.ledger, s.started, s.now, s.locked), s.limit);
    assert BatchClaimable(w.ledger, s.started, s.now, id);
  }

  lemma AcquiredWasSeen(w: World, p: Policy, pid: Pid, owner: Uuid, now: int, id: Id)
    requires id in AcquireWorld(w, p, pid, owner, now).begun && id !in w.begun
    ensures pid in w.seen && w.seen[pid] == id
  {
  }

  /** What a step begins is due at the step's own reading. */
  lemma NewlyBegunIsDue(w: World, p: Policy, s: Step, id: Id)
    requires ScheduleInv(w) && id in Move(w, p, s).begun && id !in w.begun
    ensures BegunDue(w.ledger, Apply(w, p, s).high, id)
  {
    HighIsKept(w, p, s);
    if s.ClaimStep? {
      ClaimedIsDue(w, p, s.owner, s.now, s.locked, id);
      DueByReading(w.ledger.outbox[id].intent, s.now, Apply(w, p, s).high);
    } else if s.BatchClaimStep? {
      BatchClaimedIsDue(w, s, id);
      DueByReading(w.ledger.outbox[id].intent, s.now, Apply(w, p, s).high);
    } else if s.AcquireStep? {
      AcquiredWasSeen(w, p, s.pid, s.newOwner, s.now, id);
      BegunStays(w.ledger, w.ledger, w.high, Apply(w, p, s).high, id);
    } else {
      CommitBeginsNothing(w, p, s);
    }
  }

  lemma CommitBeginsNothing(w: World, p: Policy, s: Step)
    requires Traced(w) && !s.ClaimStep? && !s.BatchClaimStep? && !s.AcquireStep?
    ensures Move(w, p, s).begun == w.begun
  {
  }

  lemma NewlySeenIsDue(w: World, p: Policy, s: Step, pid: Pid)
    requires pid in Move(w, p, s).seen && pid !in w.seen
    ensures BegunDue(w.ledger, Apply(w, p, s).high, Move(w, p, s).seen[pid])
  {
    HighIsKept(w, p, s);
    DueByReading(w.ledger.outbox[s.id].intent, s.now, Apply(w, p, s).high);
  }

  lemma SeenIsKept(w: World, p: Policy, s: Step, pid: Pid)
    requires pid in Move(w, p, s).seen && pid in w.seen
    ensures Move(w, p, s).seen[pid] == w.seen[pid]
  {
  }

  lemma ConsumerTraced(w: World, p: Policy, s: Step)
    requires Traced(w)
    ensures Traced(ConsumerWorld(w, p, s))
  {
    ConsumerMoves(w, p, s);
    if s.AcquireStep? {
      AcquireTraced(w, p, s.pid, s.newOwner, s.now);
    } else if s.CommitStep? {
      if s.pid in w.sessions && w.sessions[s.pid].phase.Working? {
        CommitTraced(w, s.pid, s.last, s.now);
      }
    } else if !s.ReadStep? {
      SessionTraced(w, p, s);
    }
  }

  lemma AcquireTraced(w: World, p: Policy, pid: Pid, owner: Uuid, now: int)
    requires Traced(w)
    ensures Traced(AcquireWorld(w, p, pid, owner, now))
  {
  }

  lemma CommitTraced(w: World, pid: Pid, last: bool, now: int)
    requires Traced(w) && pid in w.sessions && w.sessions[pid].phase.Working?
    ensures Traced(CommitWorld(w, pid, last, now))
  {
  }

  lemma SessionTraced(w: World, p: Policy, s: Step)
    requires Traced(w) && !s.CommitStep?
    ensures Traced(SessionWorld(w, p, s))
  {
  }

  /** No attempt is counted without the message having begun. */
  ghost predicate AttemptsBegun(l: Ledger, begun: set<Id>) {
    forall id | id in l.outbox && l.outbox[id].attempts > 0 :: id in begun
  }

  lemma PublisherAttempts(w: World, p: Policy, s: Step)
    requires AttemptsBegun(w.ledger, w.begun)
    ensures AttemptsBegun(PublisherWorld(w, p, s).ledger, PublisherWorld(w, p, s).begun)
    ensures w.begun <= PublisherWorld(w, p, s).begun
  {
  }

  lemma BatchAttempts(w: World, s: Step)
    requires AttemptsBegun(w.ledger, w.begun)
    ensures AttemptsBegun(BatchWorld(w, s).ledger, BatchWorld(w, s).begun)
    ensures w.begun <= BatchWorld(w, s).begun
  {
  }

  lemma EnqueueAttempts(w: World, e: Event, newId: Id, now: int)
    requires AttemptsBegun(w.ledger, w.begun)
    ensures var w' := EnqueueWorld(w, e, newId, now);
            AttemptsBegun(w'.ledger, w'.begun) && w'.begun == w.begun
            && w'.ledger.inbox == w.ledger.inbox && w'.ledger.executions == w.ledger.executions
  {
  }

  lemma MoveTraced(w: World, p: Policy, s: Step)
    requires Traced(w)
    ensures Traced(Move(w, p, s))
  {
    assert AttemptsBegun(w.ledger, w.begun);
    if s.EnqueueStep? {
      EnqueueAttempts(w, s.event, s.newId, s.now);
    } else if IsPublisher(s) {
      PublisherAttempts(w, p, s);
      PublisherWorldOnly(w, p, s);
    } else if IsBatch(s) {
      BatchAttempts(w, s);
      BatchPublisherOnly(w, s);
    } else {
      ConsumerTraced(w, p, s);
    }
  }

  lemma StepKeepsSchedule(w: World, p: Policy, s: Step)
    requires ScheduleInv(w)
    ensures ScheduleInv(Apply(w, p, s))
  {
    var w' := Apply(w, p, s);
    StepExtends(w, p, s);
    HighIsKept(w, p, s);
    MoveTraced(w, p, s);
    forall id | id in w'.begun
      ensures BegunDue(w'.ledger, w'.high, id)
    {
      if id !in w.begun {
        NewlyBegunIsDue(w, p, s, id);
        BegunStays(w.ledger, w'.ledger, w'.high, w'.high, id);
      } else {
        BegunStays(w.ledger, w'.ledger, w.high, w'.high, id);
      }
    }
    forall pid | pid in w'.seen
      ensures BegunDue(w'.ledger, w'.high, w'.seen[pid])
    {
      if pid !in w.seen {
        NewlySeenIsDue(w, p, s, pid);
        BegunStays(w.ledger, w'.ledger, w'.high, w'.high, w'.seen[pid]);
      } else {
        SeenIsKept(w, p, s, pid);
        BegunStays(w.ledger, w'.ledger, w.high, w'.high, w.seen[pid]);
      }
    }
  }

  lemma {:induction false} RunKeepsSchedule(w: World, p: Policy, steps: seq<Step>)
    requires ScheduleInv(w)
    ensures ScheduleInv(Run(w, p, steps))
  {
    if steps != [] {
      RunKeepsSchedule(w, p, steps[..|steps| - 1]);
      StepKeepsSchedule(Run(w, p, steps[..|steps| - 1]), p, steps[|steps| - 1]);
    }
  }

  // ----- The reading that began it -----

  /** This step begins the message: a publisher's or a batch worker's claim takes it, or an
      eligibility read finds it. */
  predicate Begins(w: World, p: Policy, s: Step, id: Id) {
    || ClaimsIt(w, p, s, id)
    || (s.BatchClaimStep? && ValidBatch(s.owner, s.limit, s.leaseSeconds)
        && id in BatchIds(w.ledger, s.limit, s.started, s.now, s.locked))
    || (s.ReadStep? && s.id == id && s.pid !in w.seen && s.pid !in w.sessions && Eligible(w.ledger, p, s.now, id))
  }

  lemma BeginsDue(w: World, p: Policy, s: Step, id: Id)
    requires Begins(w, p, s, id)
    ensures id in w.ledger.outbox && Due(w.ledger.outbox[id].intent, s.now)
  {
    if s.ClaimStep? {
      assert Claimable(w.ledger, p, s.now, id);
    } else if s.BatchClaimStep? {
      TakeIsSorted(w.ledger.outbox, BatchSet(w.ledger, s.started, s.now, s.locked), s.limit);
      assert BatchClaimable(w.ledger, s.started, s.now, id);
    }
  }

  /** Step i of the run began the message. */
  predicate BeganAt(p: Policy, steps: seq<Step>, i: nat, id: Id) {
    i < |steps| && Begins(Run(START, p, steps[..i]), p, steps[i], id)
  }

  ghost predicate WasBegun(p: Policy, steps: seq<Step>, id: Id) {
    exists i: nat :: BeganAt(p, steps, i, id)
  }

  lemma BegunBefore(p: Policy, steps: seq<Step>, id: Id)
    requires steps != [] && WasBegun(p, steps[..|steps| - 1], id)
    ensures WasBegun(p, steps, id)
  {
    var before := steps[..|steps| - 1];
    var i: nat :| BeganAt(p, before, i, id);
    assert before[..i] == steps[..i];
    assert BeganAt(p, steps, i, id);
  }

  lemma BegunNow(p: Policy, steps: seq<Step>, id: Id)
    requires steps != [] && Begins(Run(START, p, steps[..|steps| - 1]), p, steps[|steps| - 1], id)
    ensures WasBegun(p, steps, id)
  {
    assert BeganAt(p, steps, |steps| - 1, id);
  }

  lemma NewlyBegunHasCause(w: World, p: Policy, s: Step, id: Id)
    requires Traced(w) && id in Move(w, p, s).begun && id !in w.begun
    ensures Begins(w, p, s, id) || (s.AcquireStep? && s.pid in w.seen && w.seen[s.pid] == id)
  {
    if s.AcquireStep? {
      AcquiredWasSeen(w, p, s.pid, s.newOwner, s.now, id);
    } else if !s.ClaimStep? && !s.BatchClaimStep? {
      CommitBeginsNothing(w, p, s);
    }
  }

  lemma NewlySeenHasCause(w: World, p: Policy, s: Step, pid: Pid)
    requires pid in Move(w, p, s).seen && pid !in w.seen
    ensures Begins(w, p, s, Move(w, p, s).seen[pid])
  {
  }

  /** Everything begun, and every pending read, has a step of the run that began it. */
  ghost predicate CauseInv(p: Policy, steps: seq<Step>) {
    var w := Run(START, p, steps);
    && (forall id | id in w.begun :: WasBegun(p, steps, id))
    && (forall pid | pid in w.seen :: WasBegun(p, steps, w.seen[pid]))
  }

  lemma StepHasCauses(p: Policy, steps: seq<Step>)
    requires steps != [] && CauseInv(p, steps[..|steps| - 1]) && Traced(Run(START, p, steps[..|steps| - 1]))
    ensures CauseInv(p, steps)
  {
    var w, s := Run(START, p, steps[..|steps| - 1]), steps[|steps| - 1];
    var w' := Move(w, p, s);
    forall id | id in w'.begun
      ensures WasBegun(p, steps, id)
    {
      if id in w.begun {
        BegunBefore(p, steps, id);
      } else {
        NewlyBegunHasCause(w, p, s, id);
        if Begins(w, p, s, id) {
          BegunNow(p, steps, id);
        } else {
          BegunBefore(p, steps, w.seen[s.pid]);
        }
      }
    }
    forall pid | pid in w'.seen
      ensures WasBegun(p, steps, w'.seen[pid])
    {
      if pid in w.seen {
        SeenIsKept(w, p, s, pid);
        BegunBefore(p, steps, w.seen[pid]);
      } else {
        NewlySeenHasCause(w, p, s, pid);
        BegunNow(p, steps, w'.seen[pid]);
      }
    }
  }

  lemma {:induction false} RunHasCauses(p: Policy, steps: seq<Step>)
    ensures CauseInv(p, steps)
  {
    if steps != [] {
      RunHasCauses(p, steps[..|steps| - 1]);
      RunKeepsSchedule(START, p, steps[..|steps| - 1]);
      StepHasCauses(p, steps);
    }
  }

  lemma RunSplits(p: Policy, steps: seq<Step>, i: nat)
    requires i <= |steps|
    ensures Run(START, p, steps) == Run(Run(START, p, steps[..i]), p, steps[i..])
  {
    RunAppend(START, p, steps[..i], steps[i..]);
    assert steps[..i] + steps[i..] == steps;
  }

  /** The claim or read at step i read a clock that had reached the message's schedule. */
  lemma BeganDue(p: Policy, steps: seq<Step>, i: nat, id: Id)
    requires BeganAt(p, steps, i, id)
    ensures var l := Run(START, p, steps).ledger; id in l.outbox && Due(l.outbox[id].intent, steps[i].now)
  {
    var w := Run(START, p, steps[..i]);
    BeginsDue(w, p, steps[i], id);
    RunSplits(p, steps, i);
    RunExtends(START, p, steps[..i]);
    RunExtends(w, p, steps[i..]);
  }

  /** In every run, older lease path included and whatever the clock does: a message that was
      ever claimed by a publisher or a batch worker, leased for execution, or received, was
      begun by a claim or an eligibility read whose own clock reading had reached its
      schedule. */
  lemma NotBefore(p: Policy, steps: seq<Step>, id: Id)
    ensures var w := Run(START, p, steps);
            id in w.begun
            || (id in w.ledger.outbox && w.ledger.outbox[id].attempts > 0)
            || (exists r | r in w.ledger.inbox :: r.message == id)
            || (exists k | k in w.ledger.executions :: w.ledger.executions[k].message == id) ==>
              && id in w.ledger.outbox && DueBy(w.ledger.outbox[id].intent, w.high)
              && exists i: nat :: BeganAt(p, steps, i, id) && Due(w.ledger.outbox[id].intent, steps[i].now)
  {
    RunKeepsSchedule(START, p, steps);
    RunHasCauses(p, steps);
    var w := Run(START, p, steps);
    if id in w.begun {
      assert BegunDue(w.ledger, w.high, id);
      var i: nat :| BeganAt(p, steps, i, id);
      BeganDue(p, steps, i, id);
    }
  }
}
