/** A consumer that renews in time keeps its resource to itself, over any number of
    heartbeats and whatever the other processes try. */
module Heartbeat {
  import opened Wrappers
  import opened Clock
  import opened Schema
  import opened Publisher
  import opened Consumer
  import opened Protocol
  import opened Effects
  import opened Fencing

  /** The row is this lease, good until `until`. */
  predicate Held(l: Ledger, lease: ConsumerLease, until: int) {
    OnRow(l, lease) && l.executions[lease.resource].expires == At(until)
  }

  /** While held: no other claim on the resource succeeds or leaves a trace, reconcile does
      not requeue the message, and the guard passes. */
  lemma HeldIsExclusive(l: Ledger, p: Policy, lease: ConsumerLease, until: int, now: int, id: Id,
                        owner: Uuid, locked: set<Id>)
    requires Held(l, lease, until) && now < until
    ensures id in l.outbox && Resource(l, id) == lease.resource ==> Acquire(l, p, id, owner, now) == (l, None)
    ensures lease.message !in OverdueSet(l, p, now, locked)
    ensures lease.message in l.outbox ==>
              Publisher.Reconcile(l, p, now, locked).outbox[lease.message] == l.outbox[lease.message]
    ensures Current(l, lease, now)
  {
    assert Executing(l, now, lease.message) by {
      assert lease.resource in l.executions.Keys;
    }
  }

  predicate Beats(w: World, s: Step, lease: ConsumerLease) {
    s.HeartbeatStep? && s.pid in w.sessions && w.sessions[s.pid].lease == lease
  }

  predicate Releases(w: World, s: Step, lease: ConsumerLease) {
    s.ReleaseStep? && s.pid in w.sessions && w.sessions[s.pid].lease == lease
  }

  /** One step, reading a clock before the deadline: the lease stays held, and a heartbeat
      of its own moves the deadline. */
  lemma StepHolds(w: World, p: Policy, s: Step, lease: ConsumerLease, until: int)
    requires Held(w.ledger, lease, until) && !Releases(w, s, lease)
    requires s.AcquireStep? || s.HeartbeatStep? ==> s.now < until
    ensures Held(Apply(w, p, s).ledger, lease, if Beats(w, s, lease) then s.now + p.leaseSeconds * SECOND else until)
  {
    if s.EnqueueStep? {
    } else if IsPublisher(s) || IsBatch(s) {
      PublisherMoves(w, p, s);
    } else if s.AcquireStep? {
      AcquireHolds(w, p, s.pid, s.newOwner, s.now, lease, until);
    } else if !s.ReadStep? {
      SessionHolds(w, p, s, lease, until);
    }
  }

  lemma AcquireHolds(w: World, p: Policy, pid: Pid, owner: Uuid, now: int, lease: ConsumerLease, until: int)
    requires Held(w.ledger, lease, until) && now < until
    ensures Held(AcquireWorld(w, p, pid, owner, now).ledger, lease, until)
  {
  }

  lemma SessionHolds(w: World, p: Policy, s: Step, lease: ConsumerLease, until: int)
    requires Held(w.ledger, lease, until) && !Releases(w, s, lease)
    requires s.HeartbeatStep? ==> s.now < until
    ensures Held(SessionWorld(w, p, s).ledger, lease, if Beats(w, s, lease) then s.now + p.leaseSeconds * SECOND else until)
  {
    if (s.HeartbeatStep? || s.ReleaseStep?) && s.pid in w.sessions {
      var other := w.sessions[s.pid].lease;
      if other.resource == lease.resource && other != lease {
        assert !OnRow(w.ledger, other);
      }
    }
  }

  /** The worlds a run passes through. */
  ghost predicate IsTrace(p: Policy, ws: seq<World>, steps: seq<Step>) {
    |ws| == |steps| + 1 && forall i | 0 <= i < |steps| :: ws[i + 1] == Apply(ws[i], p, steps[i])
  }

  /** The deadline of the lease after n steps. */
  function Deadline(p: Policy, ws: seq<World>, steps: seq<Step>, lease: ConsumerLease, start: int, n: nat): int
    requires n <= |steps| <= |ws|
  {
    if n == 0 then start
    else if Beats(ws[n - 1], steps[n - 1], lease) then steps[n - 1].now + p.leaseSeconds * SECOND
    else Deadline(p, ws, steps, lease, start, n - 1)
  }

  /** Each heartbeat of the lease reads the latest clock so far, and reads it before the
      deadline the previous one set: less than a lease after it. */
  ghost predicate BeatsInTime(p: Policy, ws: seq<World>, steps: seq<Step>, lease: ConsumerLease, start: int)
    requires |steps| <= |ws|
  {
    forall k | 0 <= k < |steps| && Beats(ws[k], steps[k], lease) ::
      NotAfter(ws[k].high, At(steps[k].now)) && steps[k].now < Deadline(p, ws, steps, lease, start, k)
  }

  ghost predicate NeverReleased(ws: seq<World>, steps: seq<Step>, lease: ConsumerLease)
    requires |steps| <= |ws|
  {
    forall k | 0 <= k < |steps| :: !Releases(ws[k], steps[k], lease)
  }

  lemma HighOnlyGrows(w: World, p: Policy, s: Step)
    ensures NotAfter(w.high, Apply(w, p, s).high)
    ensures s.AcquireStep? || s.HeartbeatStep? ==> NotAfter(At(s.now), Apply(w, p, s).high)
    ensures s.HeartbeatStep? && NotAfter(w.high, At(s.now)) ==> NotAfter(Apply(w, p, s).high, At(s.now))
  {
    HighIsKept(w, p, s);
  }

  /** A run in which every heartbeat lands in time and which has not yet read its last
      deadline; it may end anywhere between two heartbeats. */
  ghost predicate InTime(p: Policy, ws: seq<World>, steps: seq<Step>, lease: ConsumerLease, start: int) {
    && IsTrace(p, ws, steps)
    && BeatsInTime(p, ws, steps, lease, start)
    && NotAfter(ws[|steps|].high, At(Deadline(p, ws, steps, lease, start, |steps|) - 1))
  }

  /** Every reading up to a heartbeat is at most the heartbeat's, so before the deadline. */
  lemma {:induction false} ReadingsBeforeDeadline(p: Policy, ws: seq<World>, steps: seq<Step>,
                                                  lease: ConsumerLease, start: int, j: nat)
    requires InTime(p, ws, steps, lease, start) && j < |steps|
    ensures NotAfter(ws[j + 1].high, At(Deadline(p, ws, steps, lease, start, j) - 1))
    decreases |steps| - j
  {
    HighOnlyGrows(ws[j], p, steps[j]);
    if !Beats(ws[j], steps[j], lease) && j + 1 < |steps| {
      ReadingsBeforeDeadline(p, ws, steps, lease, start, j + 1);
      HighOnlyGrows(ws[j + 1], p, steps[j + 1]);
    }
  }

  /** Over any number of heartbeats and beyond the last one, with every other process free to
      do anything: at each point of the run the lease is held until its current deadline, and
      no reading so far has reached that deadline. */
  lemma {:induction false} HeartbeatKeepsExclusivity(p: Policy, ws: seq<World>, steps: seq<Step>,
                                                     lease: ConsumerLease, start: int, j: nat)
    requires InTime(p, ws, steps, lease, start) && NeverReleased(ws, steps, lease)
    requires Held(ws[0].ledger, lease, start) && j <= |steps|
    ensures Held(ws[j].ledger, lease, Deadline(p, ws, steps, lease, start, j))
    ensures j < |steps| ==> NotAfter(ws[j + 1].high, At(Deadline(p, ws, steps, lease, start, j) - 1))
    decreases j
  {
    if j < |steps| {
      ReadingsBeforeDeadline(p, ws, steps, lease, start, j);
    }
    if j > 0 {
      HeartbeatKeepsExclusivity(p, ws, steps, lease, start, j - 1);
      HighOnlyGrows(ws[j - 1], p, steps[j - 1]);
      StepHolds(ws[j - 1], p, steps[j - 1], lease, Deadline(p, ws, steps, lease, start, j - 1));
    }
  }

  /** Neither an acquisition of the resource nor a reconcile at this step does anything to the
      lease's resource or message. */
  predicate LeavesAlone(w: World, w': World, s: Step, lease: ConsumerLease) {
    && (s.AcquireStep? && s.pid in w.seen && w.seen[s.pid] in w.ledger.outbox
        && Resource(w.ledger, w.seen[s.pid]) == lease.resource ==>
          w'.ledger == w.ledger && w'.sessions == w.sessions)
    && (s.ReconcileStep? && lease.message in w.ledger.outbox ==>
          lease.message in w'.ledger.outbox && w'.ledger.outbox[lease.message] == w.ledger.outbox[lease.message])
  }

  lemma HeldLeavesAlone(w: World, p: Policy, s: Step, lease: ConsumerLease, until: int)
    requires Held(w.ledger, lease, until) && NotAfter(Apply(w, p, s).high, At(until - 1))
    ensures LeavesAlone(w, Apply(w, p, s), s, lease)
  {
    HighIsKept(w, p, s);
    if s.AcquireStep? {
      if s.pid in w.seen && w.seen[s.pid] in w.ledger.outbox {
        HeldIsExclusive(w.ledger, p, lease, until, s.now, w.seen[s.pid], s.newOwner, {});
      }
    } else if s.ReconcileStep? {
      HeldIsExclusive(w.ledger, p, lease, until, s.now, lease.message, 0, s.locked);
    }
  }

  predicate CommitsAt(w: World, pid: Pid, lease: ConsumerLease) {
    pid in w.sessions && w.sessions[pid].phase.Working? && w.sessions[pid].lease == lease
  }

  /** The commit is in the history with its writes, and the last one has its receipt. */
  predicate Commits(w: World, p: Policy, pid: Pid, last: bool, now: int)
    requires pid in w.sessions
  {
    var s, w' := w.sessions[pid], Apply(w, p, CommitStep(pid, last, now));
    w'.commits == w.commits + [Commit(s.lease, last, s.writes)]
    && (last ==> Receipt(s.topic, s.lease.message) in w'.ledger.inbox)
  }

  /** The commit leaves no trace in the database or the history, and its writes are gone. */
  predicate Refuses(w: World, p: Policy, pid: Pid, last: bool, now: int) {
    var w' := Apply(w, p, CommitStep(pid, last, now));
    w'.commits == w.commits && w'.ledger == w.ledger && pid in w'.sessions && w'.sessions[pid].writes == 0
  }

  /** A lease held until `until` commits before it and not from it on, even if nobody else has
      taken the resource. */
  lemma HeldCommitsUntil(w: World, p: Policy, lease: ConsumerLease, until: int, pid: Pid, last: bool, now: int)
    requires Held(w.ledger, lease, until) && CommitsAt(w, pid, lease)
    ensures now < until ==> Commits(w, p, pid, last, now)
    ensures now >= until ==> Refuses(w, p, pid, last, now)
  {
  }

  /** So while the heartbeats land in time, no other claim on the resource succeeds and no
      reconcile requeues the message, whatever the other processes do; and the lease commits
      exactly at readings before its last deadline. */
  lemma NobodyElseGetsIn(p: Policy, ws: seq<World>, steps: seq<Step>, lease: ConsumerLease, start: int)
    requires InTime(p, ws, steps, lease, start) && NeverReleased(ws, steps, lease)
    requires Held(ws[0].ledger, lease, start)
    ensures forall j | 0 <= j < |steps| :: LeavesAlone(ws[j], ws[j + 1], steps[j], lease)
    ensures forall now :: Current(ws[|steps|].ledger, lease, now) <==> now < Deadline(p, ws, steps, lease, start, |steps|)
    ensures forall pid, last, now ::
              CommitsAt(ws[|steps|], pid, lease) && now < Deadline(p, ws, steps, lease, start, |steps|) ==>
                Commits(ws[|steps|], p, pid, last, now)
    ensures forall pid, last, now ::
              CommitsAt(ws[|steps|], pid, lease) && now >= Deadline(p, ws, steps, lease, start, |steps|) ==>
                Refuses(ws[|steps|], p, pid, last, now)
  {
    forall j | 0 <= j < |steps|
      ensures LeavesAlone(ws[j], ws[j + 1], steps[j], lease)
    {
      HeartbeatKeepsExclusivity(p, ws, steps, lease, start, j);
      HeldLeavesAlone(ws[j], p, steps[j], lease, Deadline(p, ws, steps, lease, start, j));
    }
    HeartbeatKeepsExclusivity(p, ws, steps, lease, start, |steps|);
    var until := Deadline(p, ws, steps, lease, start, |steps|);
    forall pid, last, now | CommitsAt(ws[|steps|], pid, lease)
      ensures if now < until then Commits(ws[|steps|], p, pid, last, now) else Refuses(ws[|steps|], p, pid, last, now)
    {
      HeldCommitsUntil(ws[|steps|], p, lease, until, pid, last, now);
    }
  }

  /** In every run: whatever is committed, intermediate commits included, read a clock before
      the expiry then on its own row. */
  lemma NoLateCommit(p: Policy, steps: seq<Step>, i: nat)
    requires i < |steps| && Run(START, p, steps[..i + 1]).commits != Run(START, p, steps[..i]).commits
    ensures var w, s := Run(START, p, steps[..i]), steps[i];
            && s.CommitStep? && s.pid in w.sessions
            && var lease := w.sessions[s.pid].lease;
               && lease.resource in w.ledger.executions
               && var row := w.ledger.executions[lease.resource];
                  && row.message == lease.message && row.owner == lease.owner && row.epoch == lease.epoch
                  && row.expires.At? && s.now < row.expires.ticks
  {
    var w := Run(START, p, steps[..i]);
    assert steps[..i + 1][..i] == steps[..i];
    StartIsFenced();
    RunKeepsFence(START, p, steps[..i]);
    if steps[i].CommitStep? {
      CommitIsApplied(w, p, steps[i]);
      if steps[i].pid in w.sessions {
        GuardEffect(w.ledger, p, w.sessions[steps[i].pid].lease, "", steps[i].now);
      }
    } else {
      OnlyCommitsCommit(w, p, steps[i]);
    }
  }
}
