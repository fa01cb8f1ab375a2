/** consume: claim, work beside a heartbeat, and always clean up. */
module Consume {
  import opened Wrappers
  import opened Schema
  import opened Intents
  import opened Publisher
  import opened Consumer
  import opened Protocol
  import opened Effects
  import opened Consumption
  import opened Delivery
  import opened Fencing

  /** The running system: one database, and what its processes remember.  The steps of the
      process that consumes go through DurableTasks; `steps` are all steps since the start. */
  class System {
    const db: Database
    const tasks: DurableTasks
    const repository: OutboxRepository
    const policy: Policy
    var memory: World
    ghost var steps: seq<Step>

    function Now(): World
      reads this, db
    {
      memory.(ledger := db.State())
    }

    ghost predicate Valid()
      reads this, db
    {
      && tasks.db == db && tasks.policy == policy && repository.db == db
      && Now() == Run(START, policy, steps)
    }

    constructor (policy: Policy)
      requires ValidPolicy(policy)
      ensures Valid() && Now() == START && this.policy == policy && fresh(db)
    {
      var database := new Database();
      var consumers := new DurableTasks(database, policy);
      var outbox := new OutboxRepository(database);
      db, tasks, repository := database, consumers, outbox;
      memory := START;
      steps := [];
      this.policy := policy;
    }

    /** A transaction of the consuming process has just changed the database as the step says;
        the process takes note of it.  `before` is the world the step started from. */
    method Note(s: Step, before: World)
      requires tasks.db == db && tasks.policy == policy && repository.db == db
      requires before == Run(START, policy, steps) && db.State() == Apply(before, policy, s).ledger
      modifies this
      ensures Valid() && steps == old(steps) + [s]
      ensures Now() == Apply(before, policy, s)
    {
      memory := Apply(before, policy, s);
      steps := steps + [s];
      assert steps[..|steps| - 1] == old(steps);
    }

    /** A step of another process. */
    method DoOther(s: Step, ghost pid: Pid)
      requires Valid() && PidOf(s) != Some(pid)
      modifies this, db
      ensures Valid() && steps == old(steps) + [s]
      ensures Undisturbed(old(Now()), Now(), pid)
    {
      WorldIsFenced(this);
      StepKeepsProcess(Now(), policy, s, pid);
      StepExtends(Now(), policy, s);
      var before := Now();
      var l := Apply(before, policy, s).ledger;
      db.outbox, db.byKey, db.inbox, db.dead, db.executions := l.outbox, l.byKey, l.inbox, l.dead, l.executions;
      Note(s, before);
    }

    method DoNext(others: seq<Step>, i: nat, ghost start: World, ghost pid: Pid)
      requires Valid() && NotBy(others, pid) && i < |others| && Undisturbed(start, Now(), pid)
      modifies this, db
      ensures Valid() && steps == old(steps) + [others[i]]
      ensures Undisturbed(start, Now(), pid)
    {
      ghost var before := Now();
      DoOther(others[i], pid);
      UndisturbedTransitive(start, before, Now(), pid);
    }

    method DoEach(others: seq<Step>, ghost pid: Pid)
      requires Valid() && NotBy(others, pid)
      modifies this, db
      ensures Valid() && steps == old(steps) + others
      ensures Undisturbed(old(Now()), Now(), pid)
    {
      ghost var start := Now();
      for i := 0 to |others|
        invariant Valid() && steps == old(steps) + others[..i]
        invariant Undisturbed(start, Now(), pid)
      {
        DoNext(others, i, start, pid);
      }
      assert others[..|others|] == others;
    }

    /** Other processes move. */
    method DoAll(others: seq<Step>, ghost pid: Pid)
      requires Valid() && NotBy(others, pid)
      modifies this, db
      ensures Valid() && steps == old(steps) + others
      ensures Now() == Run(old(Now()), policy, others)
      ensures Undisturbed(old(Now()), Now(), pid)
    {
      ghost var before := steps;
      DoEach(others, pid);
      RunAppend(START, policy, before, others);
    }
  }

  /** This process is as it was and the ledger has only grown. */
  ghost predicate Undisturbed(w: World, w': World, pid: Pid) {
    SameProcess(w, w', pid) && Extends(w.ledger, w'.ledger)
  }

  lemma UndisturbedTransitive(w: World, w': World, w'': World, pid: Pid)
    requires Undisturbed(w, w', pid) && Undisturbed(w', w'', pid)
    ensures Undisturbed(w, w'', pid)
  {
    ExtendsTransitive(w.ledger, w'.ledger, w''.ledger);
  }

  lemma WorldIsFenced(sys: System)
    requires sys.Valid()
    ensures FenceInv(sys.Now())
  {
    StartIsFenced();
    RunKeepsFence(START, sys.policy, sys.steps);
  }

  /** The process number of a consumer's step. */
  function PidOf(s: Step): Option<Pid> {
    match s
    case ReadStep(pid, _, _) => Some(pid)
    case AcquireStep(pid, _, _) => Some(pid)
    case CheckStep(pid, _) => Some(pid)
    case WriteStep(pid) => Some(pid)
    case CommitStep(pid, _, _) => Some(pid)
    case DiscardStep(pid) => Some(pid)
    case RollBackStep(pid) => Some(pid)
    case HeartbeatStep(pid, _) => Some(pid)
    case ReleaseStep(pid) => Some(pid)
    case CrashStep(pid) => Some(pid)
    case _ => None
  }

  predicate NotBy(steps: seq<Step>, pid: Pid) {
    forall i | 0 <= i < |steps| :: PidOf(steps[i]) != Some(pid)
  }

  predicate OthersOnly(events: seq<Happening>, pid: Pid) {
    forall i | 0 <= i < |events| && events[i].Others? :: NotBy(events[i].steps, pid)
  }

  /** The process's session and pending read are as they were. */
  predicate SameProcess(w: World, w': World, pid: Pid) {
    && (pid in w'.sessions <==> pid in w.sessions) && (pid in w.sessions ==> w'.sessions[pid] == w.sessions[pid])
    && (pid in w'.seen <==> pid in w.seen) && (pid in w.seen ==> w'.seen[pid] == w.seen[pid])
  }

  lemma SessionKeepsProcess(w: World, p: Policy, s: Step, pid: Pid)
    requires PidOf(s) != Some(pid)
    ensures SameProcess(w, SessionWorld(w, p, s), pid)
  {
  }

  lemma StepKeepsProcess(w: World, p: Policy, s: Step, pid: Pid)
    requires PidOf(s) != Some(pid)
    ensures SameProcess(w, Apply(w, p, s), pid)
  {
    if s.EnqueueStep? || IsPublisher(s) || IsBatch(s) {
      assert SameProcesses(w, Move(w, p, s));
    } else {
      ConsumerKeepsProcess(w, p, s, pid);
    }
  }

  lemma ConsumerKeepsProcess(w: World, p: Policy, s: Step, pid: Pid)
    requires PidOf(s) != Some(pid)
    ensures SameProcess(w, ConsumerWorld(w, p, s), pid)
  {
    if s.AcquireStep? {
      AcquireKeepsProcess(w, p, s.pid, s.newOwner, s.now, pid);
    } else if !s.ReadStep? {
      SessionKeepsProcess(w, p, s, pid);
    }
  }

  lemma AcquireKeepsProcess(w: World, p: Policy, other: Pid, owner: Uuid, now: int, pid: Pid)
    requires other != pid
    ensures SameProcess(w, AcquireWorld(w, p, other, owner, now), pid)
  {
  }

  predicate Running(w: World, pid: Pid, lease: ConsumerLease) {
    pid !in w.seen && pid in w.sessions && w.sessions[pid].phase.Working? && w.sessions[pid].lease == lease
  }

  predicate Holding(w: World, pid: Pid, lease: ConsumerLease) {
    pid !in w.seen && pid in w.sessions && w.sessions[pid].lease == lease
  }

  /** The receipt of the lease's message is in. */
  predicate Received(l: Ledger, id: Id) {
    id in l.outbox && ReceiptOf(l, id) in l.inbox
  }

  lemma ReceivedStays(l: Ledger, l': Ledger, id: Id)
    requires Received(l, id) && Extends(l, l')
    ensures Received(l', id)
  {
    assert l'.outbox[id].intent == l.outbox[id].intent;
  }

  /** The eligibility read. */
  method ReadMessage(sys: System, pid: Pid, id: Id, now: int) returns (row: Option<Message>)
    requires sys.Valid() && pid !in sys.Now().seen && pid !in sys.Now().sessions
    modifies sys
    ensures sys.Valid() && sys.steps == old(sys.steps) + [ReadStep(pid, id, now)]
    ensures sys.Now() == Apply(old(sys.Now()), sys.policy, ReadStep(pid, id, now))
    ensures pid !in sys.Now().sessions
    ensures row.Some? <==> Eligible(old(sys.Now()).ledger, sys.policy, now, id)
    ensures row.Some? <==> pid in sys.Now().seen
    ensures row.Some? ==> sys.Now().seen[pid] == id && id in sys.db.outbox && sys.db.outbox[id] == row.value
  {
    var before := sys.Now();
    row := sys.tasks.ReadMessage(id, now);
    sys.Note(ReadStep(pid, id, now), before);
  }

  /** The upsert and the second look; `intent` comes from the read. */
  method TakeLease(sys: System, pid: Pid, intent: Intent, newOwner: Uuid, now: int) returns (lease: Option<ConsumerLease>)
    requires sys.Valid() && pid in sys.Now().seen && pid !in sys.Now().sessions
    requires var id := sys.Now().seen[pid]; id in sys.db.outbox && sys.db.outbox[id].intent == intent
    modifies sys, sys.db
    ensures sys.Valid() && sys.steps == old(sys.steps) + [AcquireStep(pid, newOwner, now)]
    ensures sys.Now() == Apply(old(sys.Now()), sys.policy, AcquireStep(pid, newOwner, now))
    ensures lease.None? ==> pid !in sys.Now().seen && pid !in sys.Now().sessions
    ensures lease.Some? ==> Holding(sys.Now(), pid, lease.value) && sys.Now().sessions[pid].phase.Leased?
                            && lease.value.message == old(sys.Now()).seen[pid]
                            && !Received(sys.Now().ledger, lease.value.message)
  {
    var before := sys.Now();
    var id := sys.memory.seen[pid];
    AcquireIsObserved(before, sys.policy, pid, newOwner, now);
    AcquireStepLeases(before, sys.policy, pid, newOwner, now);
    lease := sys.tasks.AcquireLease(id, intent, newOwner, now);
    sys.Note(AcquireStep(pid, newOwner, now), before);
  }

  predicate Took(w: World, w': World, pid: Pid, lease: Option<ConsumerLease>) {
    && pid in w.seen && pid !in w'.seen
    && (pid in w'.sessions <==> lease.Some?)
    && (lease.Some? ==>
          w'.sessions[pid].phase.Leased? && w'.sessions[pid].lease == lease.value
          && lease.value.message == w.seen[pid] && !Received(w'.ledger, w.seen[pid]))
  }

  lemma AcquireIsObserved(w: World, p: Policy, pid: Pid, owner: Uuid, now: int)
    ensures Apply(w, p, AcquireStep(pid, owner, now)) == Observe(AcquireWorld(w, p, pid, owner, now), now)
  {
  }

  lemma AcquireStepLeases(w: World, p: Policy, pid: Pid, owner: Uuid, now: int)
    requires pid in w.seen && w.seen[pid] in w.ledger.outbox && pid !in w.sessions
    ensures var (l, lease) := Acquire(w.ledger, p, w.seen[pid], owner, now);
            AcquireWorld(w, p, pid, owner, now).ledger == l && Took(w, AcquireWorld(w, p, pid, owner, now), pid, lease)
  {
  }

  /** claim_execution, with other processes between its two statements. */
  method ClaimExecution(sys: System, pid: Pid, id: Id, newOwner: Uuid, readAt: int, between: seq<Step>, acquiredAt: int)
    returns (lease: Option<ConsumerLease>)
    requires sys.Valid() && pid !in sys.Now().seen && pid !in sys.Now().sessions && NotBy(between, pid)
    modifies sys, sys.db
    ensures sys.Valid() && old(sys.steps) <= sys.steps
    ensures id in old(sys.db.dead) && old(sys.db.dead)[id].replayedAt.None? ==> lease.None?
    ensures lease.None? ==> pid !in sys.Now().seen && pid !in sys.Now().sessions
    ensures lease.Some? ==> Holding(sys.Now(), pid, lease.value) && sys.Now().sessions[pid].phase.Leased?
                            && lease.value.message == id && !Received(sys.Now().ledger, id)
    ensures sys.Now() == AfterClaim(old(sys.Now()), sys.policy, pid, id, newOwner, readAt, between, acquiredAt)
    ensures lease.Some? <==> pid in sys.Now().sessions
  {
    var row := ReadMessage(sys, pid, id, readAt);
    if row.None? {
      return None;
    }
    sys.DoAll(between, pid);
    lease := TakeLease(sys, pid, row.value.intent, newOwner, acquiredAt);
  }

  /** The first check of execute. */
  method Check(sys: System, pid: Pid, lease: ConsumerLease, now: int) returns (ok: bool)
    requires sys.Valid() && Holding(sys.Now(), pid, lease) && sys.Now().sessions[pid].phase.Leased?
    modifies sys, sys.db
    ensures sys.Valid() && sys.steps == old(sys.steps) + [CheckStep(pid, now)]
    ensures sys.Now() == Apply(old(sys.Now()), sys.policy, CheckStep(pid, now))
    ensures Holding(sys.Now(), pid, lease)
    ensures ok <==> Running(sys.Now(), pid, lease)
    ensures ok <==> Current(old(sys.Now()).ledger, lease, now)
  {
    var before := sys.Now();
    ok := sys.tasks.CheckLease(lease, now);
    sys.Note(CheckStep(pid, now), before);
  }

  /** The heartbeat: whether the lease was renewed. */
  method Renew(sys: System, pid: Pid, lease: ConsumerLease, now: int) returns (ok: bool)
    requires sys.Valid() && Running(sys.Now(), pid, lease)
    modifies sys, sys.db
    ensures sys.Valid() && sys.steps == old(sys.steps) + [HeartbeatStep(pid, now)]
    ensures sys.Now() == Apply(old(sys.Now()), sys.policy, HeartbeatStep(pid, now))
    ensures Running(sys.Now(), pid, lease)
    ensures ok <==> Current(old(sys.Now()).ledger, lease, now)
  {
    var before := sys.Now();
    var renewed := sys.tasks.Renew(lease, now);
    ok := renewed.Success?;
    sys.Note(HeartbeatStep(pid, now), before);
  }

  method HandlerWrites(sys: System, pid: Pid, lease: ConsumerLease)
    requires sys.Valid() && Running(sys.Now(), pid, lease)
    modifies sys, sys.db
    ensures sys.Valid() && sys.steps == old(sys.steps) + [WriteStep(pid)]
    ensures sys.Now() == Apply(old(sys.Now()), sys.policy, WriteStep(pid))
    ensures Running(sys.Now(), pid, lease)
  {
    sys.Note(WriteStep(pid), sys.Now());
  }

  method HandlerDiscards(sys: System, pid: Pid, lease: ConsumerLease)
    requires sys.Valid() && Running(sys.Now(), pid, lease)
    modifies sys, sys.db
    ensures sys.Valid() && sys.steps == old(sys.steps) + [DiscardStep(pid)]
    ensures sys.Now() == Apply(old(sys.Now()), sys.policy, DiscardStep(pid))
    ensures Running(sys.Now(), pid, lease)
    ensures sys.Now().ledger == old(sys.Now()).ledger && sys.Now().commits == old(sys.Now()).commits
  {
    sys.Note(DiscardStep(pid), sys.Now());
  }

  /** A commit of the session: whether the guard let it through.  The last one carries the
      receipt. */
  method CommitSession(sys: System, pid: Pid, lease: ConsumerLease, last: bool, now: int) returns (ok: bool)
    requires sys.Valid() && Running(sys.Now(), pid, lease)
    modifies sys, sys.db
    ensures sys.Valid() && sys.steps == old(sys.steps) + [CommitStep(pid, last, now)]
    ensures sys.Now() == Apply(old(sys.Now()), sys.policy, CommitStep(pid, last, now))
    ensures Holding(sys.Now(), pid, lease)
    ensures ok <==> Current(old(sys.Now()).ledger, lease, now)
    ensures !(ok && last) ==> Running(sys.Now(), pid, lease)
    ensures ok && last ==> Received(sys.Now().ledger, lease.message)
  {
    WorldIsFenced(sys);
    var before := sys.Now();
    CommitSessionLeaves(before, sys.policy, pid, last, now);
    if last {
      var committed := sys.tasks.CommitWithReceipt(sys.repository, lease, sys.memory.sessions[pid].topic, now);
      ok := committed.Success?;
    } else {
      ok := sys.tasks.CheckLease(lease, now);
    }
    sys.Note(CommitStep(pid, last, now), before);
  }

  /** What a commit leaves: the receipt too if it is the last, nothing if the guard refuses. */
  function CommittedLedger(w: World, pid: Pid, last: bool, now: int): Ledger
    requires pid in w.sessions
  {
    var s := w.sessions[pid];
    if !last then w.ledger else
      match CommitFinal(w.ledger, s.lease, s.topic, now)
      case Success(l) => l
      case Failure(_) => w.ledger
  }

  lemma CommitSessionLeaves(w: World, p: Policy, pid: Pid, last: bool, now: int)
    requires SessionsFenced(w) && pid in w.sessions && Running(w, pid, w.sessions[pid].lease)
    ensures var w' := Apply(w, p, CommitStep(pid, last, now));
            var lease := w.sessions[pid].lease;
            && Holding(w', pid, lease)
            && w'.ledger == CommittedLedger(w, pid, last, now)
            && (!(Current(w.ledger, lease, now) && last) ==> Running(w', pid, lease))
            && (Current(w.ledger, lease, now) && last ==> Received(w'.ledger, lease.message))
  {
    CommitWorldLeaves(w, pid, last, now);
  }

  lemma CommitWorldLeaves(w: World, pid: Pid, last: bool, now: int)
    requires SessionsFenced(w) && pid in w.sessions && w.sessions[pid].phase.Working?
    ensures var w' := CommitWorld(w, pid, last, now);
            var lease := w.sessions[pid].lease;
            && w'.ledger == CommittedLedger(w, pid, last, now)
            && w'.seen == w.seen && pid in w'.sessions && w'.sessions[pid].lease == lease
            && (!(Current(w.ledger, lease, now) && last) ==> w'.sessions[pid].phase.Working?)
            && (Current(w.ledger, lease, now) && last ==> Received(w'.ledger, lease.message))
  {
    assert CommitWorld(w, pid, last, now).ledger.outbox == w.ledger.outbox;
  }

  /** One event while the handler runs: None if it goes on. */
  method Happen(sys: System, pid: Pid, lease: ConsumerLease, e: Happening) returns (over: Option<Outcome>)
    requires sys.Valid() && Running(sys.Now(), pid, lease) && (e.Others? ==> NotBy(e.steps, pid))
    modifies sys, sys.db
    ensures sys.Valid() && old(sys.steps) <= sys.steps
    ensures Holding(sys.Now(), pid, lease)
    ensures over.None? ==> Running(sys.Now(), pid, lease)
    ensures over == Some(Consumed) ==> Received(sys.Now().ledger, lease.message)
    ensures over.Some? ==> over.value != Killed && over.value != NotClaimed
    ensures (sys.Now(), over) == AfterEvent(old(sys.Now()), sys.policy, pid, e)
  {
    GuardEffect(sys.Now().ledger, sys.policy, lease, "", if e.Beat? || e.Save? || e.Return? then e.now else 0);
    over := None;
    match e
    case Others(steps) => sys.DoAll(steps, pid);
    case Beat(now) =>
      var ok := Renew(sys, pid, lease, now);
      over := if ok then None else Some(LostLease);
    case Write => HandlerWrites(sys, pid, lease);
    case Discard => HandlerDiscards(sys, pid, lease);
    case Save(now, caught) =>
      var ok := CommitSession(sys, pid, lease, false, now);
      over := if ok || caught then None else Some(LostLease);
    case Return(now) =>
      var ok := CommitSession(sys, pid, lease, true, now);
      over := Some(if ok then Consumed else LostLease);
    case Raise => over := Some(HandlerFailed);
  }

  method RollBack(sys: System, pid: Pid, lease: ConsumerLease)
    requires sys.Valid() && Holding(sys.Now(), pid, lease)
    modifies sys, sys.db
    ensures sys.Valid() && sys.steps == old(sys.steps) + [RollBackStep(pid)]
    ensures sys.Now() == Apply(old(sys.Now()), sys.policy, RollBackStep(pid))
    ensures Holding(sys.Now(), pid, lease)
    ensures sys.Now().ledger == old(sys.Now()).ledger && sys.Now().commits == old(sys.Now()).commits
  {
    RollBackLeaves(sys.Now(), sys.policy, pid);
    sys.Note(RollBackStep(pid), sys.Now());
  }

  method Release(sys: System, pid: Pid, lease: ConsumerLease)
    requires sys.Valid() && Holding(sys.Now(), pid, lease)
    modifies sys, sys.db
    ensures sys.Valid() && sys.steps == old(sys.steps) + [ReleaseStep(pid)]
    ensures sys.Now() == Apply(old(sys.Now()), sys.policy, ReleaseStep(pid))
    ensures pid !in sys.Now().seen && pid !in sys.Now().sessions
    ensures DeadLease(sys.Now().ledger, lease)
    ensures Extends(old(sys.Now()).ledger, sys.Now().ledger) && sys.Now().commits == old(sys.Now()).commits
  {
    WorldIsFenced(sys);
    var before := sys.Now();
    ReleaseKills(before, sys.policy, pid);
    sys.tasks.Release(lease);
    sys.Note(ReleaseStep(pid), before);
  }

  lemma RollBackLeaves(w: World, p: Policy, pid: Pid)
    requires pid in w.sessions
    ensures var w' := Apply(w, p, RollBackStep(pid));
            w'.ledger == w.ledger && w'.seen == w.seen && w'.commits == w.commits
            && pid in w'.sessions && w'.sessions[pid].lease == w.sessions[pid].lease
  {
  }

  lemma ReleaseKills(w: World, p: Policy, pid: Pid)
    requires Indexed(w.ledger) && pid in w.sessions && Reaches(w.ledger, w.sessions[pid].lease)
    ensures var w' := Apply(w, p, ReleaseStep(pid));
            w'.seen == w.seen && pid !in w'.sessions && w'.commits == w.commits
            && w'.ledger == Consumer.Release(w.ledger, w.sessions[pid].lease)
            && Extends(w.ledger, w'.ledger) && DeadLease(w'.ledger, w.sessions[pid].lease)
  {
    StepExtends(w, p, ReleaseStep(pid));
    assert Apply(w, p, ReleaseStep(pid)).ledger == Consumer.Release(w.ledger, w.sessions[pid].lease);
  }

  /** The handler beside the heartbeat, until one of them ends the work. */
  method RunScript(sys: System, pid: Pid, lease: ConsumerLease, script: seq<Happening>) returns (over: Option<Outcome>)
    requires sys.Valid() && Running(sys.Now(), pid, lease) && OthersOnly(script, pid)
    modifies sys, sys.db
    ensures sys.Valid() && old(sys.steps) <= sys.steps
    ensures Holding(sys.Now(), pid, lease)
    ensures over == Some(Consumed) ==> Received(sys.Now().ledger, lease.message)
    ensures over.Some? ==> over.value != Killed && over.value != NotClaimed
    ensures (sys.Now(), over) == AfterScript(old(sys.Now()), sys.policy, pid, script, 0)
  {
    over := None;
    ghost var whole := AfterScript(sys.Now(), sys.policy, pid, script, 0);
    for i := 0 to |script|
      invariant sys.Valid() && old(sys.steps) <= sys.steps
      invariant over.None? && Running(sys.Now(), pid, lease)
      invariant whole == AfterScript(sys.Now(), sys.policy, pid, script, i)
    {
      over := Happen(sys, pid, lease, script[i]);
      if over.Some? {
        return;
      }
    }
  }

  /** The finally block: what is not committed is rolled back, then the lease is released. */
  method CleanUp(sys: System, pid: Pid, lease: ConsumerLease)
    requires sys.Valid() && Holding(sys.Now(), pid, lease)
    modifies sys, sys.db
    ensures sys.Valid() && old(sys.steps) <= sys.steps
    ensures pid !in sys.Now().seen && pid !in sys.Now().sessions
    ensures DeadLease(sys.Now().ledger, lease)
    ensures sys.Now().commits == old(sys.Now()).commits
    ensures Received(old(sys.Now()).ledger, lease.message) ==> Received(sys.Now().ledger, lease.message)
    ensures sys.Now() == Apply(Apply(old(sys.Now()), sys.policy, RollBackStep(pid)), sys.policy, ReleaseStep(pid))
  {
    RollBack(sys, pid, lease);
    ghost var before := sys.Now().ledger;
    Release(sys, pid, lease);
    if Received(before, lease.message) {
      ReceivedStays(before, sys.Now().ledger, lease.message);
    }
  }

  /** The first check, and the handler only if it passes. */
  method Execute(sys: System, pid: Pid, lease: ConsumerLease, settling: seq<Step>, checkedAt: int, script: seq<Happening>)
    returns (over: Option<Outcome>)
    requires sys.Valid() && Holding(sys.Now(), pid, lease) && sys.Now().sessions[pid].phase.Leased?
    requires NotBy(settling, pid) && OthersOnly(script, pid)
    modifies sys, sys.db
    ensures sys.Valid() && old(sys.steps) <= sys.steps
    ensures Holding(sys.Now(), pid, lease)
    ensures over == Some(Consumed) ==> Received(sys.Now().ledger, lease.message)
    ensures over.Some? ==> over.value != Killed && over.value != NotClaimed
    ensures (sys.Now(), over) == AfterExecute(old(sys.Now()), sys.policy, pid, settling, checkedAt, script)
  {
    sys.DoAll(settling, pid);
    var ok := Check(sys, pid, lease, checkedAt);
    if !ok {
      return Some(LostLease);
    }
    over := RunScript(sys, pid, lease, script);
  }

  /** Whatever the other processes, the heartbeat, the handler and the clocks do: the run
      stays a run of the protocol; unless the process is killed, no session is left behind and
      the lease is dead for good; and `Consumed` is answered only with the receipt in. */
  method RunConsume(sys: System, pid: Pid, id: Id, newOwner: Uuid, readAt: int, between: seq<Step>,
                    acquiredAt: int, settling: seq<Step>, checkedAt: int, script: seq<Happening>)
    returns (outcome: Outcome, ghost lease: Option<ConsumerLease>)
    requires sys.Valid() && pid !in sys.Now().seen && pid !in sys.Now().sessions
    requires NotBy(between, pid) && NotBy(settling, pid) && OthersOnly(script, pid)
    modifies sys, sys.db
    ensures sys.Valid() && old(sys.steps) <= sys.steps
    ensures pid !in sys.Now().seen && pid !in sys.Now().sessions
    ensures outcome == NotClaimed <==> lease.None?
    ensures lease.Some? && outcome != Killed ==> DeadLease(sys.Now().ledger, lease.value)
    ensures outcome == Consumed ==> Received(sys.Now().ledger, id)
    ensures (sys.Now(), outcome)
            == AfterConsume(old(sys.Now()), sys.policy, pid, id, newOwner, readAt, between, acquiredAt, settling, checkedAt, script)
  {
    var claimed := ClaimExecution(sys, pid, id, newOwner, readAt, between, acquiredAt);
    lease := claimed;
    if claimed.None? {
      return NotClaimed, None;
    }
    var over := Execute(sys, pid, claimed.value, settling, checkedAt, script);
    if over.None? {
      Kill(sys, pid);
      return Killed, lease;
    }
    CleanUp(sys, pid, claimed.value);
    outcome := over.value;
  }

  /** The process dies: nothing is released. */
  method Kill(sys: System, pid: Pid)
    requires sys.Valid()
    modifies sys, sys.db
    ensures sys.Valid() && sys.steps == old(sys.steps) + [CrashStep(pid)]
    ensures sys.Now() == Apply(old(sys.Now()), sys.policy, CrashStep(pid))
    ensures pid !in sys.Now().seen && pid !in sys.Now().sessions && sys.Now().ledger == old(sys.Now()).ledger
  {
    sys.Note(CrashStep(pid), sys.Now());
  }
}
