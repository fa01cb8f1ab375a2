/** Runs of the whole protocol: publishers, consumers, operators and crashes, interleaved in
    any order, each database transaction one atomic step that reads any clock. */
module Protocol {
  import opened Wrappers
  import opened Clock
  import opened Schema
  import opened Intents
  import opened Ordering
  import opened Publisher
  import opened Consumer

  type Pid = nat  // one call of consume

  /** Leased: before the first check.  Working: the handler runs.  Closing: it has committed,
      failed or been cancelled, and only the release is left. */
  datatype Phase = Leased | Working | Closing

  /** A consumer's session: its lease, and the handler's writes not yet committed. */
  datatype Session = Session(lease: ConsumerLease, topic: string, phase: Phase, writes: nat)

  /** A committed transaction of a consumer session. */
  datatype Commit = Commit(lease: ConsumerLease, last: bool, writes: nat)

  /** The database, the memory of the running processes, and a history of the run:
      `tickets` every publisher claim by its owner, `claims` publisher claims of a message
      since it was enqueued or replayed, `begun` messages some claim, lease or receipt began,
      `commits` in order, `high` the highest clock reading so far. */
  datatype World = World(
    ledger: Ledger,
    seen: map<Pid, Id>,
    sessions: map<Pid, Session>,
    tickets: map<string, Ticket>,
    claims: map<Id, nat>,
    begun: set<Id>,
    commits: seq<Commit>,
    high: Instant)

  const START := World(EMPTY, map[], map[], map[], map[], {}, [], NegInf)

  /** Step parameters are everything the step does not decide: identifiers drawn, clock
      readings, rows locked by others, the publish outcome, and which process moves. */
  datatype Step =
    | EnqueueStep(event: Event, newId: Id, now: int)
    | ClaimStep(owner: string, now: int, locked: set<Id>)
    | FinishStep(owner: string, error: Option<string>, now: int)
    | ReconcileStep(now: int, locked: set<Id>)
    | ReplayStep(id: Id, now: int)
    | ReadStep(pid: Pid, id: Id, now: int)
    | AcquireStep(pid: Pid, newOwner: Uuid, now: int)
    | CheckStep(pid: Pid, now: int)
    | WriteStep(pid: Pid)
    | CommitStep(pid: Pid, last: bool, now: int)
    | DiscardStep(pid: Pid)
    | RollBackStep(pid: Pid)
    | HeartbeatStep(pid: Pid, now: int)
    | ReleaseStep(pid: Pid)
    | CrashStep(pid: Pid)
    | BatchClaimStep(owner: string, limit: nat, leaseSeconds: nat, started: int, now: int, locked: set<Id>)
    | BatchPublishedStep(id: Id, owner: string, started: int, now: int)
    | BatchFailedStep(id: Id, owner: string, code: string, retrySeconds: nat, started: int, now: int)

  function Observe(w: World, now: int): World {
    w.(high := Later(w.high, At(now)))
  }

  function Store(w: World, r: Result<Ledger, DeliveryError>): World {
    if r.Success? then w.(ledger := r.value) else w
  }

  /** Consumers and the committed history are as they were. */
  predicate SameProcesses(w: World, w': World) {
    w'.sessions == w.sessions && w'.seen == w.seen && w'.commits == w.commits && w'.high == w.high
  }

  /** Publishers and what they remember are as they were. */
  predicate SamePublishers(w: World, w': World) {
    w'.tickets == w.tickets && w'.claims == w.claims && w'.high == w.high
  }

  function EnqueueWorld(w: World, e: Event, newId: Id, now: int): (w': World)
    ensures SameProcesses(w, w')
  {
    match Intents.Enqueue(w.ledger, e, newId, now)
    case Success((l, id)) => w.(ledger := l, claims := if id in w.claims then w.claims else w.claims[id := 0])
    case Failure(_) => w
  }

  function ClaimWorld(w: World, p: Policy, owner: string, now: int, locked: set<Id>): (w': World)
    ensures SameProcesses(w, w')
  {
    match Publisher.Claim(w.ledger, p, owner, now, locked)
    case (_, None) => w
    case (l, Some(t)) =>
      w.(ledger := l, tickets := w.tickets[owner := t], begun := w.begun + {t.id},
         claims := w.claims[t.id := (if t.id in w.claims then w.claims[t.id] else 0) + 1])
  }

  function ReplayWorld(w: World, p: Policy, id: Id, now: int): (w': World)
    ensures SameProcesses(w, w')
  {
    match Publisher.Replay(w.ledger, p, id, now)
    case Success(l) => w.(ledger := l, claims := w.claims[id := 0])
    case Failure(_) => w
  }

  function AcquireWorld(w: World, p: Policy, pid: Pid, owner: Uuid, now: int): (w': World)
    ensures SamePublishers(w, w')
  {
    if pid !in w.seen || w.seen[pid] !in w.ledger.outbox then w else
      var id := w.seen[pid];
      var w' := w.(seen := w.seen - {pid}, begun := w.begun + {id});
      match Consumer.Acquire(w.ledger, p, id, owner, now)
      case (l, None) => w'.(ledger := l)
      case (l, Some(lease)) =>
        w'.(ledger := l, sessions := w.sessions[pid := Session(lease, w.ledger.outbox[id].intent.topic, Leased, 0)])
  }

  function SetPhase(w: World, pid: Pid, phase: Phase): World
    requires pid in w.sessions
  {
    w.(sessions := w.sessions[pid := w.sessions[pid].(phase := phase, writes := 0)])
  }

  /** A commit runs the guard in its own transaction.  If the guard raises, the transaction
      and its writes are gone; a handler may even catch that and go on. */
  function CommitWorld(w: World, pid: Pid, last: bool, now: int): World
    requires pid in w.sessions && w.sessions[pid].phase.Working?
  {
    var s := w.sessions[pid];
    if !Current(w.ledger, s.lease, now) then SetPhase(w, pid, Working) else
      var w' := SetPhase(w, pid, if last then Closing else Working);
      w'.(commits := w.commits + [Commit(s.lease, last, s.writes)],
          ledger := if last then AddReceipt(w.ledger, Receipt(s.topic, s.lease.message), now) else w.ledger,
          begun := if last then w.begun + {s.lease.message} else w.begun)
  }

  /** One step of a consumer that holds a lease. */
  function SessionWorld(w: World, p: Policy, s: Step): (w': World)
    ensures SamePublishers(w, w')
  {
    match s
    case CheckStep(pid, now) =>
      if pid in w.sessions && w.sessions[pid].phase.Leased?
      then SetPhase(w, pid, if Current(w.ledger, w.sessions[pid].lease, now) then Working else Closing)
      else w
    case WriteStep(pid) =>
      if pid in w.sessions && w.sessions[pid].phase.Working?
      then w.(sessions := w.sessions[pid := w.sessions[pid].(writes := w.sessions[pid].writes + 1)])
      else w
    case CommitStep(pid, last, now) =>
      if pid in w.sessions && w.sessions[pid].phase.Working? then CommitWorld(w, pid, last, now) else w
    case DiscardStep(pid) =>  // the handler rolls its session back and goes on
      if pid in w.sessions && w.sessions[pid].phase.Working? then SetPhase(w, pid, Working) else w
    case RollBackStep(pid) =>
      if pid in w.sessions then SetPhase(w, pid, Closing) else w
    case HeartbeatStep(pid, now) =>
      if pid in w.sessions then Store(w, Consumer.Renew(w.ledger, p, w.sessions[pid].lease, now)) else w
    case ReleaseStep(pid) =>
      if pid in w.sessions
      then w.(ledger := Consumer.Release(w.ledger, w.sessions[pid].lease), sessions := w.sessions - {pid})
      else w
    case CrashStep(pid) => w.(sessions := w.sessions - {pid}, seen := w.seen - {pid})
    case _ => w
  }

  /** One step of the older lease path. */
  function BatchWorld(w: World, s: Step): (w': World)
    ensures SameProcesses(w, w')
  {
    match s
    case BatchClaimStep(owner, limit, leaseSeconds, started, now, locked) =>
      if !ValidBatch(owner, limit, leaseSeconds) then w else
        w.(ledger := Publisher.ClaimBatch(w.ledger, owner, limit, leaseSeconds, started, now, locked),
           begun := w.begun + set id | id in BatchIds(w.ledger, limit, started, now, locked))
    case BatchPublishedStep(id, owner, started, now) =>
      Store(w, Publisher.MarkPublished(w.ledger, id, owner, started, now))
    case BatchFailedStep(id, owner, error, retry, started, now) =>
      Store(w, Publisher.MarkFailed(w.ledger, id, owner, error, retry, started, now))
    case _ => w
  }

  /** One step of a publisher or operator of the durable path. */
  function PublisherWorld(w: World, p: Policy, s: Step): (w': World)
    ensures SameProcesses(w, w')
  {
    match s
    case ClaimStep(owner, now, locked) => ClaimWorld(w, p, owner, now, locked)
    case FinishStep(owner, error, now) =>
      if owner in w.tickets then Store(w, Publisher.Finish(w.ledger, p, w.tickets[owner], error, now)) else w
    case ReconcileStep(now, locked) =>
      w.(ledger := Publisher.Reconcile(w.ledger, p, now, locked))
    case ReplayStep(id, now) => ReplayWorld(w, p, id, now)
    case _ => w
  }

  /** One step of a consumer: the read and the acquisition of claim_execution, and what the
      session then does. */
  function ConsumerWorld(w: World, p: Policy, s: Step): (w': World)
    ensures SamePublishers(w, w')
  {
    match s
    case ReadStep(pid, id, now) =>
      if pid !in w.seen && pid !in w.sessions && Eligible(w.ledger, p, now, id) then w.(seen := w.seen[pid := id]) else w
    case AcquireStep(pid, owner, now) => AcquireWorld(w, p, pid, owner, now)
    case _ => SessionWorld(w, p, s)
  }

  lemma HighIsKept(w: World, p: Policy, s: Step)
    ensures Move(w, p, s).high == w.high
  {
  }

  predicate IsBatch(s: Step) {
    s.BatchClaimStep? || s.BatchPublishedStep? || s.BatchFailedStep?
  }

  predicate IsPublisher(s: Step) {
    s.ClaimStep? || s.FinishStep? || s.ReconcileStep? || s.ReplayStep?
  }

  /** The step is a publisher's claim and takes this message. */
  predicate ClaimsIt(w: World, p: Policy, s: Step, id: Id) {
    s.ClaimStep?
    && var t := Publisher.Claim(w.ledger, p, s.owner, s.now, s.locked).1;
       t.Some? && t.value.id == id
  }

  function Move(w: World, p: Policy, s: Step): World {
    if s.EnqueueStep? then EnqueueWorld(w, s.event, s.newId, s.now)
    else if IsPublisher(s) then PublisherWorld(w, p, s)
    else if IsBatch(s) then BatchWorld(w, s)
    else ConsumerWorld(w, p, s)
  }

  /** The clock readings of a step's transaction. */
  function Watch(w: World, s: Step): (w': World)
    ensures w' == w.(high := w'.high) && NotAfter(w.high, w'.high)
  {
    match s
    case WriteStep(_) => w
    case DiscardStep(_) => w
    case RollBackStep(_) => w
    case ReleaseStep(_) => w
    case CrashStep(_) => w
    case BatchClaimStep(_, _, _, started, now, _) => Observe(Observe(w, started), now)
    case BatchPublishedStep(_, _, started, now) => Observe(Observe(w, started), now)
    case BatchFailedStep(_, _, _, _, started, now) => Observe(Observe(w, started), now)
    case _ => Observe(w, s.now)
  }

  function Apply(w: World, p: Policy, s: Step): World {
    Watch(Move(w, p, s), s)
  }

  function Run(w: World, p: Policy, steps: seq<Step>): World {
    if steps == [] then w else Apply(Run(w, p, steps[..|steps| - 1]), p, steps[|steps| - 1])
  }

  lemma {:induction false} RunAppend(w: World, p: Policy, a: seq<Step>, b: seq<Step>)
    ensures Run(w, p, a + b) == Run(Run(w, p, a), p, b)
  {
    if b == [] {
      assert a + b == a;
    } else {
      assert (a + b)[..|a + b| - 1] == a + b[..|b| - 1];
      RunAppend(w, p, a, b[..|b| - 1]);
    }
  }

  lemma RunOne(w: World, p: Policy, s: Step)
    ensures Run(w, p, [s]) == Apply(w, p, s)
  {
    assert Run(w, p, [s][..0]) == w;
  }

  /** A step of the durable path as the pump takes it: an exception's type name is never the
      empty string. */
  predicate Durable(s: Step) {
    !IsBatch(s) && (s.FinishStep? ==> s.error != Some(""))
  }

  /** Publisher owners are new uuids, and no batch worker calls itself by one. */
  predicate NewOwner(w: World, s: Step) {
    (s.ClaimStep? || s.BatchClaimStep?) ==> s.owner !in w.tickets
  }

  ghost predicate NewOwners(w: World, p: Policy, steps: seq<Step>) {
    steps == [] || (NewOwners(w, p, steps[..|steps| - 1])
                    && NewOwner(Run(w, p, steps[..|steps| - 1]), steps[|steps| - 1]))
  }

  // ----- Every step only extends the ledger -----

  /** The step changed rows of other columns only. */
  ghost predicate SameIntents(l: Ledger, l': Ledger) {
    && l'.byKey == l.byKey
    && l'.outbox.Keys == l.outbox.Keys
    && forall id | id in l.outbox ::
         l'.outbox[id].intent == l.outbox[id].intent
         && l'.outbox[id].deduplicationKey == l.outbox[id].deduplicationKey
         && l'.outbox[id].createdAt == l.outbox[id].createdAt
  }

  lemma SameIntentsKeeps(l: Ledger, l': Ledger)
    requires Indexed(l) && SameIntents(l, l')
    ensures Indexed(l')
  {
    forall id | id in l'.outbox
      ensures l'.outbox[id].deduplicationKey in l'.byKey && l'.byKey[l'.outbox[id].deduplicationKey] == id
      ensures IsName(l'.outbox[id].intent.topic)
    {
      assert l'.outbox[id].deduplicationKey == l.outbox[id].deduplicationKey;
      assert l'.outbox[id].intent == l.outbox[id].intent;
    }
    forall k | k in l'.byKey
      ensures l'.byKey[k] in l'.outbox && l'.outbox[l'.byKey[k]].deduplicationKey == k
    {
      assert l'.byKey[k] == l.byKey[k];
    }
  }

  /** A publisher transaction touches neither intents nor receipts nor executions. */
  ghost predicate PublisherOnly(l: Ledger, l': Ledger) {
    SameIntents(l, l') && l'.inbox == l.inbox && l'.executions == l.executions
  }

  predicate SameIntent(m: Message, m': Message) {
    m'.intent == m.intent && m'.deduplicationKey == m.deduplicationKey && m'.createdAt == m.createdAt
  }

  lemma PutRowPublisherOnly(l: Ledger, id: Id, m: Message)
    requires id in l.outbox && SameIntent(l.outbox[id], m)
    ensures PublisherOnly(l, PutRow(l, id, m))
  {
  }

  lemma FinishPublisherOnly(l: Ledger, p: Policy, t: Ticket, error: Option<string>, now: int)
    ensures var r := Publisher.Finish(l, p, t, error, now);
            r.Success? ==> PublisherOnly(l, r.value)
  {
    if Holds(l, t, now) {
      PutRowPublisherOnly(l, t.id, FinishedRow(l.outbox[t.id], t.attempts, error, now));
    }
  }

  lemma ReplayPublisherOnly(l: Ledger, p: Policy, id: Id, now: int)
    ensures var r := Publisher.Replay(l, p, id, now);
            r.Success? ==> PublisherOnly(l, r.value)
  {
    if id in l.outbox {
      PutRowPublisherOnly(l, id, ReplayedRow(l.outbox[id]));
    }
  }

  lemma ClaimBatchPublisherOnly(l: Ledger, owner: string, limit: nat, leaseSeconds: nat, started: int,
                                now: int, locked: set<Id>)
    ensures PublisherOnly(l, Publisher.ClaimBatch(l, owner, limit, leaseSeconds, started, now, locked))
  {
    LeaseAllPublisherOnly(l, BatchIds(l, limit, started, now, locked), owner, started + leaseSeconds * SECOND);
  }

  lemma LeaseAllPublisherOnly(l: Ledger, ids: seq<Id>, owner: string, expires: int)
    ensures PublisherOnly(l, LeaseAll(l, ids, owner, expires))
  {
  }

  lemma MarkPublishedPublisherOnly(l: Ledger, id: Id, owner: string, started: int, now: int)
    ensures var r := Publisher.MarkPublished(l, id, owner, started, now);
            r.Success? ==> PublisherOnly(l, r.value)
  {
    if id in l.outbox {
      PutRowPublisherOnly(l, id, BatchPublishedRow(l.outbox[id], started));
    }
  }

  lemma MarkFailedPublisherOnly(l: Ledger, id: Id, owner: string, code: string, retry: nat, started: int, now: int)
    ensures var r := Publisher.MarkFailed(l, id, owner, code, retry, started, now);
            r.Success? ==> PublisherOnly(l, r.value)
  {
    if id in l.outbox {
      PutRowPublisherOnly(l, id, BatchFailedRow(l.outbox[id], code, retry, started));
    }
  }

  lemma BatchClaimPublisherOnly(w: World, s: Step)
    requires s.BatchClaimStep?
    ensures PublisherOnly(w.ledger, BatchWorld(w, s).ledger)
  {
    ClaimBatchPublisherOnly(w.ledger, s.owner, s.limit, s.leaseSeconds, s.started, s.now, s.locked);
  }

  lemma BatchPublisherOnly(w: World, s: Step)
    ensures PublisherOnly(w.ledger, BatchWorld(w, s).ledger)
  {
    match s
    case BatchClaimStep(_, _, _, _, _, _) => BatchClaimPublisherOnly(w, s);
    case BatchPublishedStep(id, owner, started, now) => MarkPublishedPublisherOnly(w.ledger, id, owner, started, now);
    case BatchFailedStep(id, owner, code, retry, started, now) =>
      MarkFailedPublisherOnly(w.ledger, id, owner, code, retry, started, now);
    case _ =>
  }

  lemma ClaimPublisherOnly(w: World, p: Policy, owner: string, now: int, locked: set<Id>)
    ensures PublisherOnly(w.ledger, ClaimWorld(w, p, owner, now, locked).ledger)
  {
    var s := ClaimableSet(w.ledger, p, now, locked);
    if s != {} {
      var m := w.ledger.outbox[Earliest(w.ledger.outbox, s)];
      PutRowPublisherOnly(w.ledger, Earliest(w.ledger.outbox, s), LeasedRow(m, owner, now + p.leaseSeconds * SECOND));
    }
  }

  lemma ReconcilePublisherOnly(l: Ledger, p: Policy, now: int, locked: set<Id>)
    ensures PublisherOnly(l, Publisher.Reconcile(l, p, now, locked))
  {
  }

  lemma PublisherWorldOnly(w: World, p: Policy, s: Step)
    ensures PublisherOnly(w.ledger, PublisherWorld(w, p, s).ledger)
  {
    match s
    case ClaimStep(owner, now, locked) => ClaimPublisherOnly(w, p, owner, now, locked);
    case ReconcileStep(now, locked) => ReconcilePublisherOnly(w.ledger, p, now, locked);
    case FinishStep(owner, error, now) =>
      if owner in w.tickets {
        FinishPublisherOnly(w.ledger, p, w.tickets[owner], error, now);
      }
    case ReplayStep(id, now) => ReplayPublisherOnly(w.ledger, p, id, now);
    case _ =>
  }

  lemma PublisherMoves(w: World, p: Policy, s: Step)
    requires IsPublisher(s) || IsBatch(s)
    ensures PublisherOnly(w.ledger, Apply(w, p, s).ledger)
  {
    if IsPublisher(s) {
      PublisherWorldOnly(w, p, s);
    } else {
      BatchPublisherOnly(w, s);
    }
  }

  /** A consumer transaction touches neither messages nor dead letters; receipts and
      execution rows only advance. */
  ghost predicate ConsumerOnly(l: Ledger, l': Ledger) {
    && l'.outbox == l.outbox && l'.byKey == l.byKey && l'.dead == l.dead
    && (forall r | r in l.inbox :: r in l'.inbox && l'.inbox[r] == l.inbox[r])
    && (forall k | k in l.executions :: k in l'.executions && Succeeds(l.executions[k], l'.executions[k]))
  }

  lemma AcquireConsumerOnly(l: Ledger, p: Policy, id: Id, owner: Uuid, now: int)
    requires id in l.outbox
    ensures ConsumerOnly(l, Consumer.Acquire(l, p, id, owner, now).0)
  {
  }

  lemma RenewConsumerOnly(l: Ledger, p: Policy, lease: ConsumerLease, now: int)
    ensures var r := Consumer.Renew(l, p, lease, now);
            r.Success? ==> ConsumerOnly(l, r.value)
    ensures ConsumerOnly(l, Consumer.Release(l, lease))
  {
  }

  lemma CommitConsumerOnly(w: World, pid: Pid, last: bool, now: int)
    requires pid in w.sessions && w.sessions[pid].phase.Working?
    ensures ConsumerOnly(w.ledger, CommitWorld(w, pid, last, now).ledger)
  {
  }

  lemma SessionConsumerOnly(w: World, p: Policy, s: Step)
    ensures ConsumerOnly(w.ledger, SessionWorld(w, p, s).ledger)
  {
    if s.CommitStep? {
      if s.pid in w.sessions && w.sessions[s.pid].phase.Working? {
        CommitConsumerOnly(w, s.pid, s.last, s.now);
      }
    } else if s.HeartbeatStep? || s.ReleaseStep? {
      if s.pid in w.sessions {
        RenewConsumerOnly(w.ledger, p, w.sessions[s.pid].lease, if s.HeartbeatStep? then s.now else 0);
      }
    }
  }

  lemma ConsumerMoves(w: World, p: Policy, s: Step)
    ensures ConsumerOnly(w.ledger, ConsumerWorld(w, p, s).ledger)
  {
    if s.AcquireStep? {
      if s.pid in w.seen && w.seen[s.pid] in w.ledger.outbox {
        AcquireConsumerOnly(w.ledger, p, w.seen[s.pid], s.newOwner, s.now);
      }
    } else {
      SessionConsumerOnly(w, p, s);
    }
  }

  lemma StepExtends(w: World, p: Policy, s: Step)
    requires Indexed(w.ledger)
    ensures Extends(w.ledger, Apply(w, p, s).ledger) && Indexed(Apply(w, p, s).ledger)
  {
    var l' := Apply(w, p, s).ledger;
    if s.EnqueueStep? {
      EnqueueKeeps(w.ledger, s.event, s.newId, s.now);
    } else if IsPublisher(s) || IsBatch(s) {
      PublisherMoves(w, p, s);
      SameIntentsKeeps(w.ledger, l');
    } else {
      ConsumerMoves(w, p, s);
      SameIntentsKeeps(w.ledger, l');
    }
  }

  /** Over every run: intents, deduplication keys and receipts never change or go, execution
      rows stay and their epochs only grow. */
  lemma {:induction false} RunExtends(w: World, p: Policy, steps: seq<Step>)
    requires Indexed(w.ledger)
    ensures Extends(w.ledger, Run(w, p, steps).ledger) && Indexed(Run(w, p, steps).ledger)
  {
    if steps != [] {
      var before := Run(w, p, steps[..|steps| - 1]);
      RunExtends(w, p, steps[..|steps| - 1]);
      StepExtends(before, p, steps[|steps| - 1]);
      ExtendsTransitive(w.ledger, before.ledger, Run(w, p, steps).ledger);
    }
  }

  /** The intent ledger over all runs: once a deduplication key is in use, every later enqueue
      under it either repeats the stored intent, and gets the stored id and changes nothing,
      or is rejected. */
  lemma IntentLedger(p: Policy, before: seq<Step>, after: seq<Step>, e: Event, newId: Id, now: int)
    requires ValidEvent(e) && e.deduplicationKey in Run(START, p, before).ledger.byKey
    ensures var l, l' := Run(START, p, before).ledger, Run(START, p, before + after).ledger;
            var id := l.byKey[e.deduplicationKey];
            && id in l.outbox && id in l'.outbox && l'.outbox[id].intent == l.outbox[id].intent
            && Intents.Enqueue(l', e, newId, now)
               == if l.outbox[id].intent == IntentOf(e) then Success((l', id)) else Failure(KeyReused)
  {
    var w := Run(START, p, before);
    RunExtends(START, p, before);
    RunAppend(START, p, before, after);
    RunExtends(w, p, after);
    KeyMeansOneIntent(w.ledger, Run(w, p, after).ledger, e, newId, now);
  }
}
