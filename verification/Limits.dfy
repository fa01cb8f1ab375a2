/** Where the code does less than might be expected: the exact condition for each, and a run
    that shows it. */
module Limits {
  import opened Wrappers
  import opened Clock
  import opened Schema
  import opened Intents
  import opened Ordering
  import opened Publisher
  import opened Consumer
  import opened Sweeping
  import opened Protocol
  import opened Fencing
  import opened Publishing

  // ----- An empty error -----

  /** finish_delivery decides the status by truth and the time by absence: with the empty
      string it publishes without a time.  Exactly then the row loses its shape. */
  lemma ShapeKeptExactly(m: Message, attempts: nat, error: Option<string>, now: int)
    ensures RowShaped(FinishedRow(m, attempts, error, now)) <==> error != Some("") || m.publishedAt.Some?
  {
  }

  /** Published without a time and not dead-lettered. */
  predicate Lost(l: Ledger, id: Id) {
    id in l.outbox && l.outbox[id].status.Published? && l.outbox[id].publishedAt.None? && !IsDead(l, id)
  }

  lemma PublisherLeavesLost(w: World, p: Policy, s: Step, id: Id)
    requires IsPublisher(s) && Lost(w.ledger, id)
    ensures Lost(PublisherWorld(w, p, s).ledger, id) && PublisherWorld(w, p, s).ledger.outbox[id] == w.ledger.outbox[id]
  {
    if s.ReconcileStep? {
      ReconcileTouches(w.ledger, p, s.now, s.locked, id);
    }
  }

  lemma MarksLeaveLost(l: Ledger, id: Id, other: Id, owner: string, code: string, retry: nat, started: int, now: int)
    requires Lost(l, id)
    ensures var r := Publisher.MarkPublished(l, other, owner, started, now);
            r.Success? ==> Lost(r.value, id) && r.value.outbox[id] == l.outbox[id]
    ensures var r := Publisher.MarkFailed(l, other, owner, code, retry, started, now);
            r.Success? ==> Lost(r.value, id) && r.value.outbox[id] == l.outbox[id]
  {
  }

  lemma BatchLeavesLost(w: World, s: Step, id: Id)
    requires IsBatch(s) && Lost(w.ledger, id)
    ensures Lost(BatchWorld(w, s).ledger, id) && BatchWorld(w, s).ledger.outbox[id] == w.ledger.outbox[id]
  {
    match s
    case BatchClaimStep(_, limit, _, started, now, locked) =>
      TakeIsSorted(w.ledger.outbox, BatchSet(w.ledger, started, now, locked), limit);
    case BatchPublishedStep(other, owner, started, now) => MarksLeaveLost(w.ledger, id, other, owner, "", 0, started, now);
    case BatchFailedStep(other, owner, code, retry, started, now) =>
      MarksLeaveLost(w.ledger, id, other, owner, code, retry, started, now);
  }

  lemma StepLeavesLost(w: World, p: Policy, s: Step, id: Id)
    requires Lost(w.ledger, id)
    ensures Lost(Apply(w, p, s).ledger, id) && Apply(w, p, s).ledger.outbox[id] == w.ledger.outbox[id]
  {
    if s.EnqueueStep? {
      EnqueueInserts(w, s.event, s.newId, s.now);
    } else if IsPublisher(s) {
      PublisherLeavesLost(w, p, s, id);
    } else if IsBatch(s) {
      BatchLeavesLost(w, s, id);
    } else {
      ConsumerMoves(w, p, s);
    }
  }

  /** Published without a time is for ever: whatever run follows, batch workers included, the
      row never changes again, and no claim, reconcile or replay reaches it at any clock. */
  lemma {:induction false} LostWithoutATime(w: World, p: Policy, steps: seq<Step>, id: Id, now: int, locked: set<Id>)
    requires Lost(w.ledger, id)
    ensures var l := Run(w, p, steps).ledger;
            && Lost(l, id) && l.outbox[id] == w.ledger.outbox[id]
            && id !in ClaimableSet(l, p, now, locked) && id !in BatchSet(l, now, now, locked)
            && !Touched(l, Publisher.Reconcile(l, p, now, locked), id)
            && Publisher.Replay(l, p, id, now).Failure?
  {
    if steps != [] {
      LostWithoutATime(w, p, steps[..|steps| - 1], id, now, locked);
      StepLeavesLost(Run(w, p, steps[..|steps| - 1]), p, steps[|steps| - 1], id);
    }
    ReconcileTouches(Run(w, p, steps).ledger, p, now, locked, id);
  }

  // ----- The older failure path -----

  /** mark_failed knows no dead letters: it keeps "out of attempts means dead-lettered" exactly
      when the row it frees has an attempt left or is in the journal already. */
  lemma MarkFailedKeepsExactly(l: Ledger, p: Policy, id: Id, owner: string, code: string, retry: nat,
                               started: int, now: int)
    requires SpentAreDead(l, p)
    ensures var r := Publisher.MarkFailed(l, id, owner, code, retry, started, now);
            r.Success? ==> (SpentAreDead(r.value, p) <==> l.outbox[id].attempts < p.maxAttempts || IsDead(l, id))
  {
    var r := Publisher.MarkFailed(l, id, owner, code, retry, started, now);
    if r.Success? {
      assert r.value.outbox[id].status.Pending? && IsDead(r.value, id) == IsDead(l, id);
      forall x | x in r.value.outbox && x != id
        ensures r.value.outbox[x] == l.outbox[x] && IsDead(r.value, x) == IsDead(l, x)
      {
      }
    }
  }

  // ----- Handlers that commit themselves -----

  /** Transaction c completes the message. */
  predicate Completes(commits: seq<Commit>, c: nat, id: Id) {
    c < |commits| && commits[c].last && commits[c].lease.message == id
  }

  /** Writes committed for the message at an epoch before this one. */
  predicate WroteBefore(commits: seq<Commit>, id: Id, epoch: nat) {
    exists i | 0 <= i < |commits| ::
      commits[i].lease.message == id && commits[i].writes > 0 && commits[i].lease.epoch < epoch
  }

  /** The writes of one execution. */
  function WritesOf(commits: seq<Commit>, lease: ConsumerLease): nat {
    if commits == [] then 0 else
      WritesOf(commits[..|commits| - 1], lease)
      + (if commits[|commits| - 1].lease == lease then commits[|commits| - 1].writes else 0)
  }

  /** The writes of a message are those of one of its leases exactly when its other leases
      wrote nothing. */
  lemma {:induction false} WritesSplit(commits: seq<Commit>, lease: ConsumerLease)
    ensures Writes(commits, lease.message) >= WritesOf(commits, lease)
    ensures Writes(commits, lease.message) == WritesOf(commits, lease)
            <==> forall i | 0 <= i < |commits| && commits[i].lease.message == lease.message && commits[i].lease != lease ::
                   commits[i].writes == 0
  {
    if commits != [] {
      var before := commits[..|commits| - 1];
      WritesSplit(before, lease);
      assert forall i | 0 <= i < |before| :: commits[i] == before[i];
    }
  }

  lemma {:induction false} EffectMeansCompletion(commits: seq<Commit>, id: Id) returns (c: nat)
    requires Effects(commits, id) > 0
    ensures Completes(commits, c, id)
  {
    if commits[|commits| - 1].last && commits[|commits| - 1].lease.message == id {
      c := |commits| - 1;
    } else {
      c := EffectMeansCompletion(commits[..|commits| - 1], id);
    }
  }

  /** The leases of a message other than the completing one have earlier epochs, so its writes
      are those of the completing one exactly when no earlier epoch wrote. */
  lemma OtherLeasesAreEarlier(w: World, c: nat, id: Id)
    requires FenceInv(w) && CompletedOnce(w.commits) && Completes(w.commits, c, id)
    ensures WroteBefore(w.commits, id, w.commits[c].lease.epoch)
            <==> exists i | 0 <= i < |w.commits| ::
                   w.commits[i].lease.message == id && w.commits[i].lease != w.commits[c].lease && w.commits[i].writes > 0
  {
    forall i | 0 <= i < |w.commits| && w.commits[i].lease.message == id
      ensures w.commits[i].lease != w.commits[c].lease <==> w.commits[i].lease.epoch < w.commits[c].lease.epoch
    {
      assert w.commits[i].lease.resource == Resource(w.ledger, id) == w.commits[c].lease.resource;
      assert i <= c;
    }
  }

  lemma WritesRepeatAt(w: World, c: nat, id: Id)
    requires FenceInv(w) && CompletedOnce(w.commits) && Completes(w.commits, c, id)
    ensures var lease := w.commits[c].lease;
            && Writes(w.commits, id) >= WritesOf(w.commits, lease)
            && (Writes(w.commits, id) == WritesOf(w.commits, lease) <==> !WroteBefore(w.commits, id, lease.epoch))
  {
    WritesSplit(w.commits, w.commits[c].lease);
    OtherLeasesAreEarlier(w, c, id);
  }

  /** In every run in which the receipt is in: the writes applied are those of the completing
      execution if and only if no earlier execution committed any.  Otherwise they repeat. */
  lemma WritesRepeatExactly(p: Policy, steps: seq<Step>, id: Id) returns (c: nat)
    requires var l := Run(START, p, steps).ledger; id in l.outbox && ReceiptOf(l, id) in l.inbox
    ensures var commits := Run(START, p, steps).commits;
            && Completes(commits, c, id)
            && Writes(commits, id) >= WritesOf(commits, commits[c].lease)
            && (Writes(commits, id) == WritesOf(commits, commits[c].lease)
                <==> !WroteBefore(commits, id, commits[c].lease.epoch))
  {
    StartIsFenced();
    RunKeepsFence(START, p, steps);
    CompletionIsLast(p, steps);
    c := EffectMeansCompletion(Run(START, p, steps).commits, id);
    WritesRepeatAt(Run(START, p, steps), c, id);
  }

  // ----- Runs of one message -----

  const TASK := Event("t", "k", "d", Payload("{}"), map[], None)

  /** One topic, one second, one attempt. */
  const ONCE := Policy(map["t" := Some("t")], 1, 1)

  const ROW := NewMessage(TASK, 0)

  lemma TaskIsValid()
    ensures ValidEvent(TASK)
  {
    assert NameStart(TASK.topic[0]);
    assert TransportHeaders(TASK) == map[];
  }

  const ENQUEUED := START.(
    ledger := EMPTY.(outbox := map[0 := ROW], byKey := map["d" := 0]), claims := map[0 := 0], high := At(0))

  lemma EnqueueTask()
    ensures Apply(START, ONCE, EnqueueStep(TASK, 0, 0)) == ENQUEUED
  {
    TaskIsValid();
    assert EMPTY.outbox[0 := ROW] == map[0 := ROW];
    assert EMPTY.byKey["d" := 0] == map["d" := 0];
    assert START.claims[0 := 0] == map[0 := 0];
  }

  /** A claim in a ledger of one message. */
  lemma ClaimTask(w: World, owner: string, now: int)
    requires w.ledger.outbox.Keys == {0} && w.claims.Keys == {0} && Claimable(w.ledger, ONCE, now, 0)
    ensures var m := w.ledger.outbox[0];
            Apply(w, ONCE, ClaimStep(owner, now, {}))
            == Observe(w.(ledger := PutRow(w.ledger, 0, LeasedRow(m, owner, now + SECOND)),
                          tickets := w.tickets[owner := Ticket(0, owner, m.attempts + 1)],
                          begun := w.begun + {0}, claims := w.claims[0 := w.claims[0] + 1]), now)
  {
    var s := ClaimableSet(w.ledger, ONCE, now, {});
    assert s == {0};
    assert Earliest(w.ledger.outbox, s) in s;
  }

  /** No lease has lapsed and nothing is published: reconcile has nothing to do. */
  lemma SweepTask(w: World, now: int)
    requires w.ledger.outbox.Keys == {0} && w.ledger.outbox[0].status.Delivering? && !Lapsed(w.ledger.outbox[0], now)
    ensures Apply(w, ONCE, ReconcileStep(now, {})) == Observe(w, now)
  {
    assert ExhaustedSet(w.ledger, ONCE, now, {}) == {} && OverdueSet(w.ledger, ONCE, now, {}) == {};
    SweepNothing(w.ledger, ONCE, now);
  }

  /** The first attempt: claimed at 0, its lease ends at one second. */
  const CLAIMED := ENQUEUED.(
    ledger := PutRow(ENQUEUED.ledger, 0, LeasedRow(ROW, "a", SECOND)),
    tickets := map["a" := Ticket(0, "a", 1)], begun := {0}, claims := map[0 := 1])

  lemma ClaimFirst()
    ensures Apply(ENQUEUED, ONCE, ClaimStep("a", 0, {})) == CLAIMED
  {
    assert Claimable(ENQUEUED.ledger, ONCE, 0, 0);
    ClaimTask(ENQUEUED, "a", 0);
    assert ENQUEUED.tickets["a" := Ticket(0, "a", 1)] == map["a" := Ticket(0, "a", 1)];
    assert ENQUEUED.claims[0 := 1] == map[0 := 1];
    assert ENQUEUED.begun + {0} == {0};
  }

  const SWEPT := CLAIMED.(high := At(SECOND - 1))

  lemma SweepBetween()
    ensures Apply(CLAIMED, ONCE, ReconcileStep(SECOND - 1, {})) == SWEPT
  {
    SweepTask(CLAIMED, SECOND - 1);
  }

  lemma ClaimAgain()
    ensures Apply(SWEPT, ONCE, ClaimStep("b", SECOND, {})).claims == map[0 := 2]
  {
    assert Claimable(SWEPT.ledger, ONCE, SECOND, 0);
    ClaimTask(SWEPT, "b", SECOND);
    assert SWEPT.claims[0 := 2] == map[0 := 2];
  }

  lemma Then(p: Policy, steps: seq<Step>, s: Step, before: World, after: World)
    requires Run(START, p, steps) == before && Apply(before, p, s) == after
    ensures Run(START, p, steps + [s]) == after
  {
    assert (steps + [s])[..|steps + [s]| - 1] == steps;
  }

  const CLAIM_RUN := [EnqueueStep(TASK, 0, 0)] + [ClaimStep("a", 0, {})]

  lemma RunToClaimed()
    ensures Run(START, ONCE, CLAIM_RUN) == CLAIMED
  {
    EnqueueTask();
    ClaimFirst();
    RunOne(START, ONCE, EnqueueStep(TASK, 0, 0));
    Then(ONCE, [EnqueueStep(TASK, 0, 0)], ClaimStep("a", 0, {}), ENQUEUED, CLAIMED);
  }

  /** A pump reconciles just before the first lease ends and claims just after: the only
      message is claimed twice under max_attempts = 1. */
  lemma ClaimOverruns()
    ensures ONCE.maxAttempts == 1
    ensures var steps := CLAIM_RUN + [ReconcileStep(SECOND - 1, {})] + [ClaimStep("b", SECOND, {})];
            Run(START, ONCE, steps).claims == map[0 := 2]
  {
    RunToClaimed();
    SweepBetween();
    ClaimAgain();
    var sweep, claim := ReconcileStep(SECOND - 1, {}), ClaimStep("b", SECOND, {});
    Then(ONCE, CLAIM_RUN, sweep, CLAIMED, SWEPT);
    Then(ONCE, CLAIM_RUN + [sweep], claim, SWEPT, Apply(SWEPT, ONCE, claim));
  }

  /** A finish with the empty string: the message is published, without a time, unacknowledged
      and out of everyone's reach, whatever run follows. */
  lemma EmptyErrorLosesTheMessage(later: seq<Step>, now: int)
    ensures var steps := CLAIM_RUN + [FinishStep("a", Some(""), 0)];
            !Acknowledged(Run(START, ONCE, steps).ledger, ONCE, 0)
            && var l := Run(START, ONCE, steps + later).ledger;
               Lost(l, 0) && 0 !in ClaimableSet(l, ONCE, now, {}) && !Touched(l, Publisher.Reconcile(l, ONCE, now, {}), 0)
  {
    RunToClaimed();
    var finish := FinishStep("a", Some(""), 0);
    var lost := Apply(CLAIMED, ONCE, finish);
    Then(ONCE, CLAIM_RUN, finish, CLAIMED, lost);
    assert Publisher.Holds(CLAIMED.ledger, CLAIMED.tickets["a"], 0);
    RunAppend(START, ONCE, CLAIM_RUN + [finish], later);
    LostWithoutATime(lost, ONCE, later, 0, now, {});
  }

  // ----- A consumer works while the publisher is still delivering -----

  const LEASE := ConsumerLease("t:k", 0, 7, 1)

  const READ := CLAIMED.(seen := map[0 := 0])

  const LEASED := CLAIMED.(
    ledger := CLAIMED.ledger.(executions := map["t:k" := Execution(0, 7, 1, At(SECOND))]),
    sessions := map[0 := Session(LEASE, "t", Leased, 0)])

  const WORKING := LEASED.(sessions := map[0 := Session(LEASE, "t", Working, 0)])

  const WRITTEN := LEASED.(sessions := map[0 := Session(LEASE, "t", Working, 1)])

  const CONSUMED := LEASED.(
    ledger := LEASED.ledger.(inbox := map[Receipt("t", 0) := 0]),
    sessions := map[0 := Session(LEASE, "t", Closing, 0)],
    commits := [Commit(LEASE, true, 1)])

  lemma ReadTask()
    ensures Apply(CLAIMED, ONCE, ReadStep(0, 0, 0)) == READ
  {
    assert Eligible(CLAIMED.ledger, ONCE, 0, 0);
    assert CLAIMED.seen[0 := 0] == map[0 := 0];
  }

  lemma LeaseTask()
    ensures Apply(READ, ONCE, AcquireStep(0, 7, 0)) == LEASED
  {
    assert Resource(READ.ledger, 0) == "t:k";
    assert READ.ledger.executions["t:k" := Execution(0, 7, 1, At(SECOND))] == map["t:k" := Execution(0, 7, 1, At(SECOND))];
    assert READ.seen - {0} == map[];
    assert READ.sessions[0 := Session(LEASE, "t", Leased, 0)] == map[0 := Session(LEASE, "t", Leased, 0)];
    assert READ.begun + {0} == {0};
  }

  lemma CheckTask()
    ensures Apply(LEASED, ONCE, CheckStep(0, 0)) == WORKING
  {
    assert Current(LEASED.ledger, LEASE, 0);
    assert LEASED.sessions[0 := Session(LEASE, "t", Working, 0)] == map[0 := Session(LEASE, "t", Working, 0)];
  }

  lemma WriteTask()
    ensures Apply(WORKING, ONCE, WriteStep(0)) == WRITTEN
  {
    assert WORKING.sessions[0 := Session(LEASE, "t", Working, 1)] == map[0 := Session(LEASE, "t", Working, 1)];
  }

  lemma CommitTask()
    ensures Apply(WRITTEN, ONCE, CommitStep(0, true, 0)) == CONSUMED
  {
    assert Current(WRITTEN.ledger, LEASE, 0);
    assert WRITTEN.sessions[0 := Session(LEASE, "t", Closing, 0)] == map[0 := Session(LEASE, "t", Closing, 0)];
    assert WRITTEN.ledger.inbox[Receipt("t", 0) := 0] == map[Receipt("t", 0) := 0];
    assert WRITTEN.begun + {0} == {0};
    assert WRITTEN.commits + [Commit(LEASE, true, 1)] == [Commit(LEASE, true, 1)];
  }

  const CONSUME_RUN := CLAIM_RUN + [ReadStep(0, 0, 0)] + [AcquireStep(0, 7, 0)] + [CheckStep(0, 0)] + [WriteStep(0)]

  lemma RunToWritten()
    ensures Run(START, ONCE, CONSUME_RUN) == WRITTEN
  {
    RunToClaimed();
    ReadTask();
    Then(ONCE, CLAIM_RUN, ReadStep(0, 0, 0), CLAIMED, READ);
    LeaseTask();
    Then(ONCE, CLAIM_RUN + [ReadStep(0, 0, 0)], AcquireStep(0, 7, 0), READ, LEASED);
    CheckTask();
    Then(ONCE, CLAIM_RUN + [ReadStep(0, 0, 0)] + [AcquireStep(0, 7, 0)], CheckStep(0, 0), LEASED, WORKING);
    WriteTask();
    Then(ONCE, CLAIM_RUN + [ReadStep(0, 0, 0)] + [AcquireStep(0, 7, 0)] + [CheckStep(0, 0)], WriteStep(0), WORKING, WRITTEN);
  }

  /** A message can settle without a dead letter, before its publisher even finishes. */
  lemma ConsumedIsComplete()
    ensures var l := Run(START, ONCE, CONSUME_RUN + [CommitStep(0, true, 0)]).ledger;
            Complete(l, ONCE, 0) && !IsDead(l, 0)
  {
    RunToWritten();
    CommitTask();
    Then(ONCE, CONSUME_RUN, CommitStep(0, true, 0), WRITTEN, CONSUMED);
  }

  /** The message is consumed and its publisher dies before the finish: once the publisher's
      lease is over, reconcile dead-letters an acknowledged message. */
  lemma AcknowledgedIsBuried()
    ensures var w := Run(START, ONCE, CONSUME_RUN + [CommitStep(0, true, 0)] + [ReconcileStep(SECOND, {})]);
            Acknowledged(w.ledger, ONCE, 0) && IsDead(w.ledger, 0)
  {
    RunToWritten();
    CommitTask();
    var commit, sweep := CommitStep(0, true, 0), ReconcileStep(SECOND, {});
    Then(ONCE, CONSUME_RUN, commit, WRITTEN, CONSUMED);
    Then(ONCE, CONSUME_RUN + [commit], sweep, CONSUMED, Apply(CONSUMED, ONCE, sweep));
    assert Exhausted(CONSUMED.ledger, ONCE, SECOND, 0);
    assert 0 in ExhaustedSet(CONSUMED.ledger, ONCE, SECOND, {});
  }

  // ----- A handler commits its own progress and dies -----

  const SAVED := WORKING.(commits := [Commit(LEASE, false, 1)])

  const NEXT := ConsumerLease("t:k", 0, 8, 2)

  const RETAKEN := SAVED.(
    ledger := SAVED.ledger.(executions := map["t:k" := Execution(0, 8, 2, At(2 * SECOND))]),
    sessions := map[0 := Session(NEXT, "t", Leased, 0)], high := At(SECOND))

  lemma SaveTask()
    ensures Apply(WRITTEN, ONCE, CommitStep(0, false, 0)) == SAVED
  {
    assert Current(WRITTEN.ledger, LEASE, 0);
    assert WRITTEN.sessions[0 := Session(LEASE, "t", Working, 0)] == map[0 := Session(LEASE, "t", Working, 0)];
    assert WRITTEN.commits + [Commit(LEASE, false, 1)] == [Commit(LEASE, false, 1)];
  }

  lemma CrashTask()
    ensures Apply(SAVED, ONCE, CrashStep(0)) == SAVED.(sessions := map[])
  {
    assert SAVED.sessions - {0} == map[];
    assert SAVED.seen - {0} == SAVED.seen;
  }

  const REREAD := SAVED.(sessions := map[], seen := map[0 := 0], high := At(SECOND))

  lemma RereadTask()
    ensures Apply(SAVED.(sessions := map[]), ONCE, ReadStep(0, 0, SECOND)) == REREAD
  {
    var idle := SAVED.(sessions := map[]);
    assert Eligible(idle.ledger, ONCE, SECOND, 0);
    assert idle.seen[0 := 0] == map[0 := 0];
  }

  lemma RetakenLease()
    ensures Acquire(REREAD.ledger, ONCE, 0, 8, SECOND) == (RETAKEN.ledger, Some(NEXT))
  {
    assert Resource(REREAD.ledger, 0) == "t:k";
    assert REREAD.ledger.executions["t:k" := Execution(0, 8, 2, At(2 * SECOND))]
        == map["t:k" := Execution(0, 8, 2, At(2 * SECOND))];
  }

  lemma RetakeTask()
    ensures Apply(REREAD, ONCE, AcquireStep(0, 8, SECOND)) == RETAKEN
  {
    RetakenLease();
    assert REREAD.seen - {0} == map[];
    assert REREAD.sessions[0 := Session(NEXT, "t", Leased, 0)] == map[0 := Session(NEXT, "t", Leased, 0)];
    assert REREAD.begun + {0} == {0};
  }

  const CHECKED := RETAKEN.(sessions := map[0 := Session(NEXT, "t", Working, 0)])

  const RESUMED := RETAKEN.(sessions := map[0 := Session(NEXT, "t", Working, 1)])

  lemma RecheckTask()
    ensures Apply(RETAKEN, ONCE, CheckStep(0, SECOND)) == CHECKED
  {
    assert Current(RETAKEN.ledger, NEXT, SECOND);
    assert RETAKEN.sessions[0 := Session(NEXT, "t", Working, 0)] == map[0 := Session(NEXT, "t", Working, 0)];
  }

  lemma RewriteTask()
    ensures Apply(CHECKED, ONCE, WriteStep(0)) == RESUMED
  {
    assert CHECKED.sessions[0 := Session(NEXT, "t", Working, 1)] == map[0 := Session(NEXT, "t", Working, 1)];
  }

  lemma FinishTask()
    ensures var w := Apply(RESUMED, ONCE, CommitStep(0, true, SECOND));
            w.commits == [Commit(LEASE, false, 1), Commit(NEXT, true, 1)] && Receipt("t", 0) in w.ledger.inbox
  {
    assert Current(RESUMED.ledger, NEXT, SECOND);
  }

  const SAVE_RUN := CONSUME_RUN + [CommitStep(0, false, 0)] + [CrashStep(0)]

  lemma RunToIdle()
    ensures Run(START, ONCE, SAVE_RUN) == SAVED.(sessions := map[])
  {
    RunToWritten();
    SaveTask();
    Then(ONCE, CONSUME_RUN, CommitStep(0, false, 0), WRITTEN, SAVED);
    CrashTask();
    Then(ONCE, CONSUME_RUN + [CommitStep(0, false, 0)], CrashStep(0), SAVED, SAVED.(sessions := map[]));
  }

  const RETAKE_RUN := SAVE_RUN + [ReadStep(0, 0, SECOND)] + [AcquireStep(0, 8, SECOND)]

  lemma RunToRetaken()
    ensures Run(START, ONCE, RETAKE_RUN) == RETAKEN
  {
    RunToIdle();
    RereadTask();
    Then(ONCE, SAVE_RUN, ReadStep(0, 0, SECOND), SAVED.(sessions := map[]), REREAD);
    RetakeTask();
    Then(ONCE, SAVE_RUN + [ReadStep(0, 0, SECOND)], AcquireStep(0, 8, SECOND), REREAD, RETAKEN);
  }

  /** The handler writes and commits once itself, its process dies, and a second execution
      writes again and completes: one receipt and one effect, but two transactions and both
      writes. */
  lemma SelfCommittedWritesRepeat()
    ensures var w := Run(START, ONCE, RETAKE_RUN + [CheckStep(0, SECOND)] + [WriteStep(0)] + [CommitStep(0, true, SECOND)]);
            && Effects(w.commits, 0) == 1 && Receipt("t", 0) in w.ledger.inbox
            && Transactions(w.commits, 0) == 2 && Writes(w.commits, 0) == 2
  {
    var check, write, commit := CheckStep(0, SECOND), WriteStep(0), CommitStep(0, true, SECOND);
    RunToRetaken();
    RecheckTask();
    RewriteTask();
    FinishTask();
    Then(ONCE, RETAKE_RUN, check, RETAKEN, CHECKED);
    Then(ONCE, RETAKE_RUN + [check], write, CHECKED, RESUMED);
    Then(ONCE, RETAKE_RUN + [check] + [write], commit, RESUMED, Apply(RESUMED, ONCE, commit));
    CountTwo(Commit(LEASE, false, 1), Commit(NEXT, true, 1));
  }

  lemma CountTwo(a: Commit, b: Commit)
    requires a.lease.message == b.lease.message == 0 && !a.last && b.last
    ensures Effects([a, b], 0) == 1 && Transactions([a, b], 0) == 2 && Writes([a, b], 0) == a.writes + b.writes
  {
    assert [a, b][..1] == [a] && [a][..0] == [];
    assert Effects([a], 0) == 0 && Transactions([a], 0) == 1 && Writes([a], 0) == a.writes;
  }
}
