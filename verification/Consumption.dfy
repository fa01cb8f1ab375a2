/** What one call of consume does, as a function of what happens around it; and that, left
    alone, it delivers. */
module Consumption {
  import opened Wrappers
  import opened Schema
  import opened Clock
  import opened Publisher
  import opened Consumer
  import opened Protocol
  import opened Effects

  /** What happens next while the handler and the heartbeat run. */
  datatype Happening =
    | Others(steps: seq<Step>)  // other processes move
    | Beat(now: int)  // the heartbeat wakes
    | Write  // the handler writes through its session
    | Discard  // the handler rolls its session back and goes on
    | Save(now: int, caught: bool)  // the handler commits the session itself, and may catch the guard's error
    | Return(now: int)  // the handler returns: receipt and last commit
    | Raise  // the handler raises

  datatype Outcome = NotClaimed | Consumed | LostLease | HandlerFailed | Killed

  /** One event while the handler runs; None if the work goes on.  The heartbeat and the commits
      go through exactly while the lease is live. */
  function AfterEvent(w: World, p: Policy, pid: Pid, e: Happening): (World, Option<Outcome>) {
    var live := (now: int) => pid in w.sessions && Live(w.ledger, w.sessions[pid].lease, now);
    match e
    case Others(steps) => (Run(w, p, steps), None)
    case Beat(now) => (Apply(w, p, HeartbeatStep(pid, now)), if live(now) then None else Some(LostLease))
    case Write => (Apply(w, p, WriteStep(pid)), None)
    case Discard => (Apply(w, p, DiscardStep(pid)), None)
    case Save(now, caught) =>
      (Apply(w, p, CommitStep(pid, false, now)), if live(now) || caught then None else Some(LostLease))
    case Return(now) => (Apply(w, p, CommitStep(pid, true, now)), Some(if live(now) then Consumed else LostLease))
    case Raise => (w, Some(HandlerFailed))
  }

  /** The events from the i-th on, until one ends the work. */
  function AfterScript(w: World, p: Policy, pid: Pid, script: seq<Happening>, i: nat): (World, Option<Outcome>)
    requires i <= |script|
    decreases |script| - i
  {
    if i == |script| then (w, None) else
      var (w', over) := AfterEvent(w, p, pid, script[i]);
      if over.Some? then (w', over) else AfterScript(w', p, pid, script, i + 1)
  }

  function AfterClaim(w: World, p: Policy, pid: Pid, id: Id, newOwner: Uuid, readAt: int, between: seq<Step>, acquiredAt: int): World {
    var read := Apply(w, p, ReadStep(pid, id, readAt));
    if pid !in read.seen then read else Apply(Run(read, p, between), p, AcquireStep(pid, newOwner, acquiredAt))
  }

  function AfterExecute(w: World, p: Policy, pid: Pid, settling: seq<Step>, checkedAt: int, script: seq<Happening>)
    : (World, Option<Outcome>)
  {
    var w' := Apply(Run(w, p, settling), p, CheckStep(pid, checkedAt));
    if pid in w'.sessions && w'.sessions[pid].phase.Working? then AfterScript(w', p, pid, script, 0) else (w', Some(LostLease))
  }

  /** The whole call; a script that ends before the work does is the death of the process. */
  function AfterConsume(w: World, p: Policy, pid: Pid, id: Id, newOwner: Uuid, readAt: int, between: seq<Step>,
                        acquiredAt: int, settling: seq<Step>, checkedAt: int, script: seq<Happening>): (World, Outcome)
  {
    var claimed := AfterClaim(w, p, pid, id, newOwner, readAt, between, acquiredAt);
    if pid !in claimed.sessions then (claimed, NotClaimed) else
      match AfterExecute(claimed, p, pid, settling, checkedAt, script)
      case (w', None) => (Apply(w', p, CrashStep(pid)), Killed)
      case (w', Some(outcome)) => (Apply(Apply(w', p, RollBackStep(pid)), p, ReleaseStep(pid)), outcome)
  }

  // ----- Left alone, it delivers -----

  /** The handler writes n times and returns at this reading. */
  predicate WritesAndReturns(script: seq<Happening>, n: nat, now: int) {
    |script| == n + 1 && script[n] == Return(now) && forall i | 0 <= i < n :: script[i] == Write
  }

  predicate HasSession(w: World, pid: Pid, s: Session) {
    pid in w.sessions && w.sessions[pid] == s
  }

  lemma WriteAdds(w: World, p: Policy, pid: Pid, s: Session)
    requires HasSession(w, pid, s) && s.phase.Working?
    ensures var w' := Apply(w, p, WriteStep(pid));
            HasSession(w', pid, s.(writes := s.writes + 1)) && w'.ledger == w.ledger && w'.commits == w.commits
  {
  }

  lemma ReturnCommits(w: World, p: Policy, pid: Pid, s: Session, now: int)
    requires HasSession(w, pid, s) && s.phase.Working? && Live(w.ledger, s.lease, now)
    ensures var w' := Apply(w, p, CommitStep(pid, true, now));
            && HasSession(w', pid, s.(phase := Closing, writes := 0))
            && w'.commits == w.commits + [Commit(s.lease, true, s.writes)]
            && w'.ledger == AddReceipt(w.ledger, Receipt(s.topic, s.lease.message), now)
  {
    GuardEffect(w.ledger, p, s.lease, s.topic, now);
  }

  lemma {:induction false} ScriptDelivers(w: World, p: Policy, pid: Pid, s: Session, script: seq<Happening>, n: nat, now: int, i: nat)
    requires HasSession(w, pid, s) && s.phase.Working? && Live(w.ledger, s.lease, now)
    requires WritesAndReturns(script, n, now) && i <= n
    ensures var (w', over) := AfterScript(w, p, pid, script, i);
            && over == Some(Consumed) && pid in w'.sessions && w'.sessions[pid].lease == s.lease
            && w'.commits == w.commits + [Commit(s.lease, true, s.writes + (n - i))]
            && w'.ledger == AddReceipt(w.ledger, Receipt(s.topic, s.lease.message), now)
    decreases n - i
  {
    if i < n {
      var next := Apply(w, p, WriteStep(pid));
      WriteAdds(w, p, pid, s);
      assert AfterEvent(w, p, pid, script[i]) == (next, None);
      ScriptDelivers(next, p, pid, s.(writes := s.writes + 1), script, n, now, i + 1);
    } else {
      ReturnCommits(w, p, pid, s, now);
      assert AfterEvent(w, p, pid, script[i]) == (Apply(w, p, CommitStep(pid, true, now)), Some(Consumed));
    }
  }

  lemma ClaimLeases(w: World, p: Policy, pid: Pid, id: Id, owner: Uuid, readAt: int, acquiredAt: int)
    requires pid !in w.seen && pid !in w.sessions && Ready(w.ledger, p, id, readAt, acquiredAt)
    ensures var w' := AfterClaim(w, p, pid, id, owner, readAt, [], acquiredAt);
            && HasSession(w', pid, Session(Granted(w.ledger, id, owner), w.ledger.outbox[id].intent.topic, Leased, 0))
            && w'.commits == w.commits && w'.ledger.inbox == w.ledger.inbox && w'.ledger.outbox == w.ledger.outbox
            && Live(w'.ledger, Granted(w.ledger, id, owner), acquiredAt + p.leaseSeconds * 1_000_000 - 1)
  {
    EligibleEffect(w.ledger, p, readAt, id);
    AcquireEffect(w.ledger, p, id, owner, acquiredAt);
    var read := Apply(w, p, ReadStep(pid, id, readAt));
    assert read.ledger == w.ledger && read.seen == w.seen[pid := id] && read.sessions == w.sessions && read.commits == w.commits;
    assert Run(read, p, []) == read;
  }

  /** A registered message whose schedule came, without receipt and open letter, on a resource
      nobody holds. */
  predicate Ready(l: Ledger, p: Policy, id: Id, readAt: int, acquiredAt: int) {
    && id in l.outbox && l.outbox[id].intent.topic in p.topics && ScheduleCame(l.outbox[id], readAt)
    && Receipt(l.outbox[id].intent.topic, id) !in l.inbox && !OpenLetter(l, id)
    && var k := l.outbox[id].intent.topic + ":" + l.outbox[id].intent.key;
       k !in l.executions || Past(l.executions[k].expires, acquiredAt)
  }

  /** The lease the call gets. */
  function Granted(l: Ledger, id: Id, owner: Uuid): ConsumerLease
    requires id in l.outbox
  {
    var k := l.outbox[id].intent.topic + ":" + l.outbox[id].intent.key;
    ConsumerLease(k, id, owner, if k in l.executions then l.executions[k].epoch + 1 else 1)
  }

  lemma CheckPasses(w: World, p: Policy, pid: Pid, s: Session, now: int)
    requires HasSession(w, pid, s) && s.phase.Leased? && Live(w.ledger, s.lease, now)
    ensures var w' := Apply(w, p, CheckStep(pid, now));
            HasSession(w', pid, s.(phase := Working, writes := 0)) && w'.ledger == w.ledger && w'.commits == w.commits
  {
    GuardEffect(w.ledger, p, s.lease, s.topic, now);
  }

  lemma CleanUpReleases(w: World, p: Policy, pid: Pid)
    requires pid in w.sessions
    ensures var w' := Apply(Apply(w, p, RollBackStep(pid)), p, ReleaseStep(pid));
            && pid !in w'.sessions && w'.commits == w.commits
            && w'.ledger == Consumer.Release(w.ledger, w.sessions[pid].lease)
  {
    var rolled := Apply(w, p, RollBackStep(pid));
    assert rolled.ledger == w.ledger && rolled.commits == w.commits;
    assert pid in rolled.sessions && rolled.sessions[pid].lease == w.sessions[pid].lease;
  }

  /** A ready message, a call that nobody disturbs, and readings within one lease of the
      acquisition: the call is answered with success, the receipt is in, the history has one
      more transaction with all the handler's writes, and the resource is free at once, whatever
      the clock does afterwards. */
  lemma LeftAloneItDelivers(w: World, p: Policy, pid: Pid, id: Id, owner: Uuid, readAt: int, acquiredAt: int, checkedAt: int,
                            n: nat, now: int, script: seq<Happening>)
    requires pid !in w.seen && pid !in w.sessions && Ready(w.ledger, p, id, readAt, acquiredAt)
    requires WritesAndReturns(script, n, now)
    requires checkedAt < acquiredAt + p.leaseSeconds * 1_000_000 && now < acquiredAt + p.leaseSeconds * 1_000_000
    ensures var (w', outcome) := AfterConsume(w, p, pid, id, owner, readAt, [], acquiredAt, [], checkedAt, script);
            var lease := Granted(w.ledger, id, owner);
            && outcome == Consumed && pid !in w'.sessions
            && Receipt(w.ledger.outbox[id].intent.topic, id) in w'.ledger.inbox
            && w'.commits == w.commits + [Commit(lease, true, n)]
            && lease.resource in w'.ledger.executions && w'.ledger.executions[lease.resource].expires == NegInf
  {
    var lease, topic := Granted(w.ledger, id, owner), w.ledger.outbox[id].intent.topic;
    var claimed := AfterClaim(w, p, pid, id, owner, readAt, [], acquiredAt);
    ClaimLeases(w, p, pid, id, owner, readAt, acquiredAt);
    assert Run(claimed, p, []) == claimed;
    CheckPasses(claimed, p, pid, Session(lease, topic, Leased, 0), checkedAt);
    var working := Apply(claimed, p, CheckStep(pid, checkedAt));
    ScriptDelivers(working, p, pid, Session(lease, topic, Working, 0), script, n, now, 0);
    var done := AfterScript(working, p, pid, script, 0).0;
    CleanUpReleases(done, p, pid);
    ReleaseEffect(done.ledger, lease);
  }
}
