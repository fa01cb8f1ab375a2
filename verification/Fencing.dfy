/** Consumer fencing over whole runs: leases that end stay dead, the committed history is
    fenced by epochs, and a message takes effect at most once.  No property here assumes
    anything of the clock. */
module Fencing {
  import opened Wrappers
  import opened Clock
  import opened Schema
  import opened Intents
  import opened Publisher
  import opened Consumer
  import opened Protocol

  // ----- A dead lease stays dead -----

  /** Released, or superseded by a later epoch. */
  predicate DeadLease(l: Ledger, lease: ConsumerLease) {
    && lease.resource in l.executions
    && var x := l.executions[lease.resource];
       x.epoch > lease.epoch || (x.epoch == lease.epoch && (!Matches(x, lease) || x.expires.NegInf?))
  }

  /** Release, and every acquisition of the resource, kill the lease. */
  lemma EndsLease(l: Ledger, p: Policy, lease: ConsumerLease, id: Id, owner: Uuid, now: int)
    requires OnRow(l, lease)
    ensures DeadLease(Release(l, lease), lease)
    ensures id in l.outbox && Resource(l, id) == lease.resource && Vacant(l, lease.resource, now) ==>
              DeadLease(Acquire(l, p, id, owner, now).0, lease)
  {
  }

  /** A dead lease is dead in every later ledger. */
  lemma DeadStays(l: Ledger, l': Ledger, lease: ConsumerLease)
    requires Extends(l, l') && DeadLease(l, lease)
    ensures DeadLease(l', lease)
  {
    assert Succeeds(l.executions[lease.resource], l'.executions[lease.resource]);
  }

  /** Whatever happens next, at any clock: the guard of a dead lease fails, its renewal
      raises, its commit raises, and its late release leaves a successor's row alone. */
  lemma DeadForever(w: World, p: Policy, steps: seq<Step>, lease: ConsumerLease, topic: string, now: int)
    requires Indexed(w.ledger) && DeadLease(w.ledger, lease)
    ensures var l := Run(w, p, steps).ledger;
            && !Current(l, lease, now)
            && Renew(l, p, lease, now).Failure?
            && CommitFinal(l, lease, topic, now).Failure?
            && Release(l, lease) == l
  {
    RunExtends(w, p, steps);
    var l := Run(w, p, steps).ledger;
    DeadStays(w.ledger, l, lease);
    if OnRow(l, lease) {
      assert l.executions[lease.resource].expires == NegInf;
      assert l.executions[lease.resource].(expires := NegInf) == l.executions[lease.resource];
      assert l.executions[lease.resource := l.executions[lease.resource]] == l.executions;
    }
  }

  // ----- The inductive invariant -----

  /** The row has moved past this lease, or is this lease. */
  predicate Reaches(l: Ledger, lease: ConsumerLease) {
    && lease.resource in l.executions
    && lease.epoch <= l.executions[lease.resource].epoch
    && (lease.epoch == l.executions[lease.resource].epoch ==> Matches(l.executions[lease.resource], lease))
  }

  /** The lease is for a message on that message's own resource. */
  predicate Addressed(l: Ledger, lease: ConsumerLease) {
    lease.message in l.outbox && lease.resource == Resource(l, lease.message)
  }

  function ReceiptOf(l: Ledger, id: Id): Receipt
    requires id in l.outbox
  {
    Receipt(l.outbox[id].intent.topic, id)
  }

  ghost predicate SessionsFenced(w: World) {
    forall pid | pid in w.sessions ::
      && Reaches(w.ledger, w.sessions[pid].lease)
      && Addressed(w.ledger, w.sessions[pid].lease)
      && w.sessions[pid].topic == w.ledger.outbox[w.sessions[pid].lease.message].intent.topic
  }

  /** No two sessions share an epoch of a resource. */
  ghost predicate SessionsDistinct(w: World) {
    forall a, b | a in w.sessions && b in w.sessions && a != b ::
      w.sessions[a].lease.resource == w.sessions[b].lease.resource ==>
        w.sessions[a].lease.epoch != w.sessions[b].lease.epoch
  }

  /** Once the receipt is in, every session that could still commit the message has been
      superseded. */
  ghost predicate DoneSuperseded(w: World) {
    forall pid | pid in w.sessions ::
      var s := w.sessions[pid];
      !s.phase.Closing? && Receipt(s.topic, s.lease.message) in w.ledger.inbox ==>
        s.lease.resource in w.ledger.executions && s.lease.epoch < w.ledger.executions[s.lease.resource].epoch
  }

  ghost predicate CommitsFenced(w: World) {
    forall i | 0 <= i < |w.commits| ::
      Reaches(w.ledger, w.commits[i].lease) && Addressed(w.ledger, w.commits[i].lease)
  }

  /** Commits of one resource in order of epochs, one lease to an epoch. */
  ghost predicate Fenced(commits: seq<Commit>) {
    forall i, j | 0 <= i < j < |commits| && commits[i].lease.resource == commits[j].lease.resource ::
      commits[i].lease.epoch < commits[j].lease.epoch || commits[i].lease == commits[j].lease
  }

  /** Last commits of a message. */
  function Effects(commits: seq<Commit>, id: Id): nat {
    if commits == [] then 0 else
      Effects(commits[..|commits| - 1], id)
      + (if commits[|commits| - 1].last && commits[|commits| - 1].lease.message == id then 1 else 0)
  }

  ghost predicate EffectsMatchReceipts(w: World) {
    && (forall id | id in w.ledger.outbox ::
          Effects(w.commits, id) == (if ReceiptOf(w.ledger, id) in w.ledger.inbox then 1 else 0))
    && (forall id | id !in w.ledger.outbox :: Effects(w.commits, id) == 0)
    && (forall r | r in w.ledger.inbox :: r.message in w.ledger.outbox)
  }

  ghost predicate ReadsKnown(w: World) {
    forall pid | pid in w.seen :: w.seen[pid] in w.ledger.outbox
  }

  ghost predicate FenceInv(w: World) {
    && Indexed(w.ledger)
    && SessionsFenced(w) && SessionsDistinct(w) && DoneSuperseded(w)
    && CommitsFenced(w) && Fenced(w.commits) && EffectsMatchReceipts(w) && ReadsKnown(w)
  }

  // ----- Steps that neither acquire nor commit -----

  lemma ReachesStays(l: Ledger, l': Ledger, lease: ConsumerLease)
    requires Extends(l, l') && Reaches(l, lease)
    ensures Reaches(l', lease)
    ensures lease.epoch < l.executions[lease.resource].epoch ==> lease.epoch < l'.executions[lease.resource].epoch
  {
    assert Succeeds(l.executions[lease.resource], l'.executions[lease.resource]);
  }

  lemma AddressedStays(l: Ledger, l': Ledger, lease: ConsumerLease)
    requires Extends(l, l') && Addressed(l, lease)
    ensures Addressed(l', lease) && l'.outbox[lease.message].intent == l.outbox[lease.message].intent
  {
    assert l'.outbox[lease.message].intent == l.outbox[lease.message].intent;
  }

  /** Sessions keep their leases or go, none comes back from closing, nothing is committed. */
  ghost predicate QuietShape(w: World, w': World) {
    && w'.ledger.inbox == w.ledger.inbox
    && w'.commits == w.commits
    && (forall pid | pid in w'.sessions ::
          pid in w.sessions
          && w'.sessions[pid].lease == w.sessions[pid].lease && w'.sessions[pid].topic == w.sessions[pid].topic
          && (w.sessions[pid].phase.Closing? ==> w'.sessions[pid].phase.Closing?))
    && (forall pid | pid in w'.seen :: w'.seen[pid] in w.ledger.outbox)
  }

  ghost predicate Quiet(w: World, w': World) {
    Extends(w.ledger, w'.ledger) && Indexed(w'.ledger) && QuietShape(w, w')
  }

  lemma QuietSessions(w: World, w': World)
    requires Quiet(w, w') && SessionsFenced(w) && SessionsDistinct(w) && DoneSuperseded(w)
    ensures SessionsFenced(w') && SessionsDistinct(w') && DoneSuperseded(w')
  {
    forall pid | pid in w'.sessions
      ensures Reaches(w'.ledger, w'.sessions[pid].lease) && Addressed(w'.ledger, w'.sessions[pid].lease)
      ensures w'.sessions[pid].topic == w'.ledger.outbox[w'.sessions[pid].lease.message].intent.topic
      ensures var s := w'.sessions[pid];
              !s.phase.Closing? && Receipt(s.topic, s.lease.message) in w'.ledger.inbox ==>
                s.lease.epoch < w'.ledger.executions[s.lease.resource].epoch
    {
      ReachesStays(w.ledger, w'.ledger, w.sessions[pid].lease);
      AddressedStays(w.ledger, w'.ledger, w.sessions[pid].lease);
    }
  }

  lemma QuietCommits(w: World, w': World)
    requires Quiet(w, w') && CommitsFenced(w)
    ensures CommitsFenced(w')
  {
    forall i | 0 <= i < |w.commits|
      ensures Reaches(w'.ledger, w.commits[i].lease) && Addressed(w'.ledger, w.commits[i].lease)
    {
      ReachesStays(w.ledger, w'.ledger, w.commits[i].lease);
      AddressedStays(w.ledger, w'.ledger, w.commits[i].lease);
    }
  }

  lemma QuietEffects(w: World, w': World)
    requires Quiet(w, w') && EffectsMatchReceipts(w)
    ensures EffectsMatchReceipts(w')
  {
    forall id | id in w'.ledger.outbox
      ensures Effects(w'.commits, id) == (if ReceiptOf(w'.ledger, id) in w'.ledger.inbox then 1 else 0)
    {
      if id in w.ledger.outbox {
        assert w'.ledger.outbox[id].intent == w.ledger.outbox[id].intent;
      } else {
        assert ReceiptOf(w'.ledger, id) !in w.ledger.inbox;
      }
    }
  }

  lemma QuietKeeps(w: World, w': World)
    requires FenceInv(w) && Quiet(w, w')
    ensures FenceInv(w')
  {
    QuietSessions(w, w');
    QuietCommits(w, w');
    QuietEffects(w, w');
  }

  // ----- Acquiring -----

  /** What a successful acquisition gives. */
  ghost predicate Fresh(l: Ledger, l': Ledger, lease: ConsumerLease) {
    && ConsumerOnly(l, l') && l'.inbox == l.inbox
    && Addressed(l, lease) && ReceiptOf(l, lease.message) !in l.inbox
    && lease.epoch == NextEpoch(l, lease.resource)
    && Reaches(l', lease) && l'.executions[lease.resource].epoch == lease.epoch
  }

  lemma AcquireIsFresh(l: Ledger, p: Policy, id: Id, owner: Uuid, now: int)
    requires id in l.outbox && Acquire(l, p, id, owner, now).1.Some?
    ensures var (l', lease) := Acquire(l, p, id, owner, now);
            Fresh(l, l', lease.value) && lease.value.message == id
  {
    AcquireConsumerOnly(l, p, id, owner, now);
  }

  /** A fresh lease supersedes every other session of its resource. */
  lemma FreshSupersedes(w: World, l': Ledger, lease: ConsumerLease, q: Pid)
    requires SessionsFenced(w) && Fresh(w.ledger, l', lease) && Extends(w.ledger, l') && q in w.sessions
    ensures var prior := w.sessions[q].lease;
            && Reaches(l', prior) && Addressed(l', prior) && l'.outbox == w.ledger.outbox
            && (prior.resource == lease.resource ==> prior.epoch < lease.epoch)
            && (prior.epoch < w.ledger.executions[prior.resource].epoch ==>
                  prior.epoch < l'.executions[prior.resource].epoch)
  {
    ReachesStays(w.ledger, l', w.sessions[q].lease);
  }

  /** What the sessions are after the acquisition. */
  ghost predicate Superseded(w: World, w': World, pid: Pid, lease: ConsumerLease) {
    && lease.message in w.ledger.outbox
    && w'.sessions == w.sessions[pid := Session(lease, w.ledger.outbox[lease.message].intent.topic, Leased, 0)]
    && forall q | q in w.sessions ::
         var prior := w.sessions[q].lease;
         && Reaches(w'.ledger, prior) && Addressed(w'.ledger, prior)
         && (prior.resource == lease.resource ==> prior.epoch < lease.epoch)
         && prior.resource in w.ledger.executions
         && (prior.epoch < w.ledger.executions[prior.resource].epoch ==>
               prior.epoch < w'.ledger.executions[prior.resource].epoch)
  }

  lemma FreshSessionsFenced(w: World, w': World, pid: Pid, lease: ConsumerLease)
    requires SessionsFenced(w) && SessionsDistinct(w)
    requires Fresh(w.ledger, w'.ledger, lease) && Superseded(w, w', pid, lease)
    ensures SessionsFenced(w') && SessionsDistinct(w')
  {
  }

  lemma FreshSuperseded(w: World, w': World, pid: Pid, lease: ConsumerLease)
    requires SessionsFenced(w) && DoneSuperseded(w)
    requires Fresh(w.ledger, w'.ledger, lease) && Superseded(w, w', pid, lease)
    ensures DoneSuperseded(w')
  {
  }

  lemma FreshSessions(w: World, w': World, pid: Pid, lease: ConsumerLease)
    requires SessionsFenced(w) && SessionsDistinct(w) && DoneSuperseded(w)
    requires Fresh(w.ledger, w'.ledger, lease) && Extends(w.ledger, w'.ledger)
    requires w'.sessions == w.sessions[pid := Session(lease, w.ledger.outbox[lease.message].intent.topic, Leased, 0)]
    ensures SessionsFenced(w') && SessionsDistinct(w') && DoneSuperseded(w')
  {
    forall q | q in w.sessions
      ensures Reaches(w'.ledger, w.sessions[q].lease) && Addressed(w'.ledger, w.sessions[q].lease)
      ensures w.sessions[q].lease.resource == lease.resource ==> w.sessions[q].lease.epoch < lease.epoch
      ensures w.sessions[q].lease.epoch < w.ledger.executions[w.sessions[q].lease.resource].epoch ==>
                w.sessions[q].lease.epoch < w'.ledger.executions[w.sessions[q].lease.resource].epoch
    {
      FreshSupersedes(w, w'.ledger, lease, q);
    }
    assert Superseded(w, w', pid, lease);
    FreshSessionsFenced(w, w', pid, lease);
    FreshSuperseded(w, w', pid, lease);
  }

  lemma FreshKeeps(w: World, w': World, pid: Pid, lease: ConsumerLease)
    requires FenceInv(w)
    requires Fresh(w.ledger, w'.ledger, lease) && Extends(w.ledger, w'.ledger) && Indexed(w'.ledger)
    requires w'.sessions == w.sessions[pid := Session(lease, w.ledger.outbox[lease.message].intent.topic, Leased, 0)]
    requires w'.commits == w.commits && ReadsKnown(w')
    ensures FenceInv(w')
  {
    FreshSessions(w, w', pid, lease);
    var mid := w'.(sessions := w.sessions);
    assert Quiet(w, mid);
    QuietCommits(w, mid);
    QuietEffects(w, mid);
  }

  lemma AcquireExtends(l: Ledger, p: Policy, id: Id, owner: Uuid, now: int)
    requires id in l.outbox && Indexed(l)
    ensures var l' := Acquire(l, p, id, owner, now).0;
            Extends(l, l') && Indexed(l') && l'.outbox == l.outbox && l'.inbox == l.inbox
  {
    AcquireConsumerOnly(l, p, id, owner, now);
    SameIntentsKeeps(l, Acquire(l, p, id, owner, now).0);
  }

  ghost predicate Acquired(w: World, w': World, pid: Pid, lease: Option<ConsumerLease>) {
    && Extends(w.ledger, w'.ledger) && Indexed(w'.ledger) && w'.ledger.inbox == w.ledger.inbox
    && w'.commits == w.commits && (forall q | q in w'.seen :: w'.seen[q] in w.ledger.outbox)
    && (lease.None? ==> w'.sessions == w.sessions)
    && (lease.Some? ==>
          Fresh(w.ledger, w'.ledger, lease.value)
          && w'.sessions
             == w.sessions[pid := Session(lease.value, w.ledger.outbox[lease.value.message].intent.topic, Leased, 0)])
  }

  lemma AcquireAcquires(w: World, p: Policy, pid: Pid, owner: Uuid, now: int)
    requires Indexed(w.ledger) && ReadsKnown(w) && pid in w.seen
    ensures Acquired(w, AcquireWorld(w, p, pid, owner, now), pid, Acquire(w.ledger, p, w.seen[pid], owner, now).1)
  {
    var id := w.seen[pid];
    AcquireExtends(w.ledger, p, id, owner, now);
    if Acquire(w.ledger, p, id, owner, now).1.Some? {
      AcquireIsFresh(w.ledger, p, id, owner, now);
    }
  }

  lemma AcquiredKeeps(w: World, w': World, pid: Pid, lease: Option<ConsumerLease>)
    requires FenceInv(w) && Acquired(w, w', pid, lease)
    ensures FenceInv(w')
  {
    if lease.Some? {
      FreshKeeps(w, w', pid, lease.value);
    } else {
      QuietKeeps(w, w');
    }
  }

  /** The second look at the inbox: a lease is handed out only while there is no receipt, and
      it supersedes every other session of the resource. */
  lemma AcquireKeeps(w: World, p: Policy, pid: Pid, owner: Uuid, now: int)
    requires FenceInv(w)
    ensures FenceInv(AcquireWorld(w, p, pid, owner, now))
  {
    if pid in w.seen {
      AcquireAcquires(w, p, pid, owner, now);
      AcquiredKeeps(w, AcquireWorld(w, p, pid, owner, now), pid, Acquire(w.ledger, p, w.seen[pid], owner, now).1);
    }
  }

  // ----- Committing -----

  /** A commit the guard let through. */
  ghost predicate Committed(w: World, w': World, pid: Pid, last: bool, now: int) {
    && pid in w.sessions && w.sessions[pid].phase.Working? && OnRow(w.ledger, w.sessions[pid].lease)
    && var s := w.sessions[pid];
       && w'.ledger == (if last then AddReceipt(w.ledger, Receipt(s.topic, s.lease.message), now) else w.ledger)
       && w'.commits == w.commits + [Commit(s.lease, last, s.writes)]
       && w'.sessions == w.sessions[pid := s.(phase := if last then Closing else Working, writes := 0)]
       && w'.seen == w.seen
  }

  /** The guard passes only while the message has no receipt. */
  lemma GuardMeansNoReceipt(w: World, pid: Pid)
    requires SessionsFenced(w) && DoneSuperseded(w)
    requires pid in w.sessions && w.sessions[pid].phase.Working? && OnRow(w.ledger, w.sessions[pid].lease)
    ensures ReceiptOf(w.ledger, w.sessions[pid].lease.message) !in w.ledger.inbox
  {
  }

  lemma CommittedSessions(w: World, w': World, pid: Pid, last: bool, now: int)
    requires SessionsFenced(w) && SessionsDistinct(w) && DoneSuperseded(w)
    requires Committed(w, w', pid, last, now)
    ensures SessionsFenced(w') && SessionsDistinct(w') && DoneSuperseded(w')
  {
    var lease := w.sessions[pid].lease;
    forall q | q in w'.sessions
      ensures var s := w'.sessions[q];
              !s.phase.Closing? && Receipt(s.topic, s.lease.message) in w'.ledger.inbox ==>
                s.lease.epoch < w'.ledger.executions[s.lease.resource].epoch
    {
      if q == pid {
        GuardMeansNoReceipt(w, pid);
      } else if w.sessions[q].lease.message == lease.message {
        assert w.sessions[q].lease.resource == lease.resource;
        assert w.sessions[q].lease.epoch != lease.epoch;
      }
    }
  }

  lemma CommittedHistory(w: World, w': World, pid: Pid, last: bool, now: int)
    requires SessionsFenced(w) && CommitsFenced(w) && Fenced(w.commits)
    requires Committed(w, w', pid, last, now)
    ensures CommitsFenced(w') && Fenced(w'.commits)
  {
    var lease := w.sessions[pid].lease;
    forall i | 0 <= i < |w'.commits|
      ensures Reaches(w'.ledger, w'.commits[i].lease) && Addressed(w'.ledger, w'.commits[i].lease)
      ensures i < |w.commits| && w'.commits[i].lease.resource == lease.resource ==>
                w'.commits[i].lease.epoch < lease.epoch || w'.commits[i].lease == lease
    {
      if i < |w.commits| {
        assert w'.commits[i] == w.commits[i];
      }
    }
  }

  lemma CommittedEffects(w: World, w': World, pid: Pid, last: bool, now: int)
    requires SessionsFenced(w) && DoneSuperseded(w) && EffectsMatchReceipts(w)
    requires Committed(w, w', pid, last, now)
    ensures EffectsMatchReceipts(w')
  {
    GuardMeansNoReceipt(w, pid);
    assert w'.commits[..|w'.commits| - 1] == w.commits;
    forall id
      ensures Effects(w'.commits, id)
              == Effects(w.commits, id) + (if last && id == w.sessions[pid].lease.message then 1 else 0)
    {
    }
  }

  lemma CommittedKeeps(w: World, w': World, pid: Pid, last: bool, now: int)
    requires FenceInv(w) && Committed(w, w', pid, last, now)
    ensures FenceInv(w')
  {
    CommittedSessions(w, w', pid, last, now);
    CommittedHistory(w, w', pid, last, now);
    CommittedEffects(w, w', pid, last, now);
    SameIntentsKeeps(w.ledger, w'.ledger);
  }

  // ----- Every step, every run -----

  lemma SessionIsQuiet(w: World, p: Policy, s: Step)
    requires ReadsKnown(w) && !s.CommitStep?
    ensures QuietShape(w, SessionWorld(w, p, s))
  {
  }

  lemma ReadIsQuiet(w: World, p: Policy, s: Step)
    requires ReadsKnown(w) && s.ReadStep?
    ensures QuietShape(w, ConsumerWorld(w, p, s))
  {
  }

  lemma CommitCommitsOrIsQuiet(w: World, pid: Pid, last: bool, now: int)
    requires ReadsKnown(w) && pid in w.sessions && w.sessions[pid].phase.Working?
    ensures QuietShape(w, CommitWorld(w, pid, last, now)) || Committed(w, CommitWorld(w, pid, last, now), pid, last, now)
  {
  }

  lemma ConsumerExtends(w: World, p: Policy, s: Step)
    requires Indexed(w.ledger)
    ensures Extends(w.ledger, ConsumerWorld(w, p, s).ledger) && Indexed(ConsumerWorld(w, p, s).ledger)
  {
    ConsumerMoves(w, p, s);
    SameIntentsKeeps(w.ledger, ConsumerWorld(w, p, s).ledger);
  }

  lemma CommitKeeps(w: World, pid: Pid, last: bool, now: int)
    requires FenceInv(w) && pid in w.sessions && w.sessions[pid].phase.Working?
    requires Extends(w.ledger, CommitWorld(w, pid, last, now).ledger) && Indexed(CommitWorld(w, pid, last, now).ledger)
    ensures FenceInv(CommitWorld(w, pid, last, now))
  {
    var w' := CommitWorld(w, pid, last, now);
    CommitCommitsOrIsQuiet(w, pid, last, now);
    if QuietShape(w, w') {
      QuietKeeps(w, w');
    } else {
      CommittedKeeps(w, w', pid, last, now);
    }
  }

  lemma OtherStepIsQuiet(w: World, p: Policy, s: Step)
    requires ReadsKnown(w) && !s.CommitStep? && !s.AcquireStep?
    ensures QuietShape(w, ConsumerWorld(w, p, s))
  {
    if s.ReadStep? {
      ReadIsQuiet(w, p, s);
    } else {
      SessionIsQuiet(w, p, s);
    }
  }

  lemma CommitStepKeeps(w: World, p: Policy, s: Step)
    requires FenceInv(w) && s.CommitStep?
    ensures FenceInv(ConsumerWorld(w, p, s))
  {
    CommitMoves(w, p, s);
    if s.pid in w.sessions && w.sessions[s.pid].phase.Working? {
      ConsumerExtends(w, p, s);
      CommitKeeps(w, s.pid, s.last, s.now);
    }
  }

  lemma CommitMoves(w: World, p: Policy, s: Step)
    requires s.CommitStep?
    ensures ConsumerWorld(w, p, s)
            == if s.pid in w.sessions && w.sessions[s.pid].phase.Working? then CommitWorld(w, s.pid, s.last, s.now) else w
  {
  }

  lemma OtherStepKeeps(w: World, p: Policy, s: Step)
    requires FenceInv(w) && !s.CommitStep? && !s.AcquireStep?
    ensures FenceInv(ConsumerWorld(w, p, s))
  {
    ConsumerExtends(w, p, s);
    OtherStepIsQuiet(w, p, s);
    QuietKeeps(w, ConsumerWorld(w, p, s));
  }

  lemma ConsumerKeepsFence(w: World, p: Policy, s: Step)
    requires FenceInv(w)
    ensures FenceInv(ConsumerWorld(w, p, s))
  {
    if s.AcquireStep? {
      assert ConsumerWorld(w, p, s) == AcquireWorld(w, p, s.pid, s.newOwner, s.now);
      AcquireKeeps(w, p, s.pid, s.newOwner, s.now);
    } else if s.CommitStep? {
      CommitStepKeeps(w, p, s);
    } else {
      OtherStepKeeps(w, p, s);
    }
  }

  lemma OthersAreQuiet(w: World, p: Policy, s: Step)
    requires ReadsKnown(w) && (s.EnqueueStep? || IsPublisher(s) || IsBatch(s))
    ensures QuietShape(w, Apply(w, p, s))
  {
    assert SameProcesses(w, Move(w, p, s));
    if !s.EnqueueStep? {
      PublisherMoves(w, p, s);
    }
  }

  lemma StepKeepsFence(w: World, p: Policy, s: Step)
    requires FenceInv(w)
    ensures FenceInv(Apply(w, p, s))
  {
    if s.EnqueueStep? || IsPublisher(s) || IsBatch(s) {
      StepExtends(w, p, s);
      OthersAreQuiet(w, p, s);
      QuietKeeps(w, Apply(w, p, s));
    } else {
      ConsumerKeepsFence(w, p, s);
      HighIsNoMatter(ConsumerWorld(w, p, s), Apply(w, p, s).high);
    }
  }

  lemma HighIsNoMatter(w: World, high: Instant)
    requires FenceInv(w)
    ensures FenceInv(w.(high := high))
  {
    QuietKeeps(w, w.(high := high));
  }

  lemma {:induction false} RunKeepsFence(w: World, p: Policy, steps: seq<Step>)
    requires FenceInv(w)
    ensures FenceInv(Run(w, p, steps))
  {
    if steps != [] {
      RunKeepsFence(w, p, steps[..|steps| - 1]);
      StepKeepsFence(Run(w, p, steps[..|steps| - 1]), p, steps[|steps| - 1]);
    }
  }

  lemma StartIsFenced()
    ensures FenceInv(START)
  {
  }

  // ----- The theorems -----

  /** Fenced history: in every run, the committed transactions of a resource, intermediate
      ones included, have non-decreasing epochs, and those at one epoch belong to one owner
      and one message. */
  lemma FencedHistory(p: Policy, steps: seq<Step>)
    ensures Fenced(Run(START, p, steps).commits)
  {
    StartIsFenced();
    RunKeepsFence(START, p, steps);
  }

  /** Nothing of a message is committed after its completing transaction. */
  ghost predicate CompletedOnce(commits: seq<Commit>) {
    forall i, j | 0 <= i < j < |commits| && commits[i].last :: commits[j].lease.message != commits[i].lease.message
  }

  lemma {:induction false} NoEffectNoCompletion(commits: seq<Commit>, id: Id)
    requires Effects(commits, id) == 0
    ensures forall i | 0 <= i < |commits| && commits[i].last :: commits[i].lease.message != id
  {
    if commits != [] {
      var before := commits[..|commits| - 1];
      NoEffectNoCompletion(before, id);
      assert forall i | 0 <= i < |before| :: commits[i] == before[i];
    }
  }

  lemma CommitKeepsCompleted(w: World, pid: Pid, last: bool, now: int)
    requires FenceInv(w) && CompletedOnce(w.commits) && pid in w.sessions && w.sessions[pid].phase.Working?
    ensures CompletedOnce(CommitWorld(w, pid, last, now).commits)
  {
    if Current(w.ledger, w.sessions[pid].lease, now) {
      GuardMeansNoReceipt(w, pid);
      NoEffectNoCompletion(w.commits, w.sessions[pid].lease.message);
    }
  }

  lemma OnlyCommitsCommit(w: World, p: Policy, s: Step)
    requires ReadsKnown(w) && !s.CommitStep?
    ensures Apply(w, p, s).commits == w.commits
  {
    if s.EnqueueStep? || IsPublisher(s) || IsBatch(s) {
      OthersAreQuiet(w, p, s);
    } else if !s.AcquireStep? {
      OtherStepIsQuiet(w, p, s);
    }
  }

  lemma CommitIsApplied(w: World, p: Policy, s: Step)
    requires s.CommitStep?
    ensures Apply(w, p, s).commits
            == if s.pid in w.sessions && w.sessions[s.pid].phase.Working? then CommitWorld(w, s.pid, s.last, s.now).commits
               else w.commits
  {
  }

  lemma StepKeepsCompleted(w: World, p: Policy, s: Step)
    requires FenceInv(w) && CompletedOnce(w.commits)
    ensures CompletedOnce(Apply(w, p, s).commits)
  {
    if s.CommitStep? {
      CommitIsApplied(w, p, s);
      if s.pid in w.sessions && w.sessions[s.pid].phase.Working? {
        CommitKeepsCompleted(w, s.pid, s.last, s.now);
      }
    } else {
      OnlyCommitsCommit(w, p, s);
    }
  }

  /** In every run, the completing transaction of a message is its last transaction of all:
      no handler's own commit, by the same lease or by any other, comes after it. */
  lemma {:induction false} CompletionIsLast(p: Policy, steps: seq<Step>)
    ensures CompletedOnce(Run(START, p, steps).commits)
  {
    if steps != [] {
      var before := steps[..|steps| - 1];
      CompletionIsLast(p, before);
      StartIsFenced();
      RunKeepsFence(START, p, before);
      StepKeepsCompleted(Run(START, p, before), p, steps[|steps| - 1]);
    }
  }

  /** The transactions of a message, and the writes they carried. */
  function Transactions(commits: seq<Commit>, id: Id): nat {
    if commits == [] then 0 else
      Transactions(commits[..|commits| - 1], id) + (if commits[|commits| - 1].lease.message == id then 1 else 0)
  }

  function Writes(commits: seq<Commit>, id: Id): nat {
    if commits == [] then 0 else
      Writes(commits[..|commits| - 1], id)
      + (if commits[|commits| - 1].lease.message == id then commits[|commits| - 1].writes else 0)
  }

  /** The handler of the message never commits the session itself. */
  ghost predicate LeavesCommitToRuntime(commits: seq<Commit>, id: Id) {
    forall i | 0 <= i < |commits| && commits[i].lease.message == id :: commits[i].last
  }

  lemma {:induction false} OnlyLastCommits(commits: seq<Commit>, id: Id)
    requires LeavesCommitToRuntime(commits, id)
    ensures Transactions(commits, id) == Effects(commits, id)
    ensures Effects(commits, id) == 0 ==> Writes(commits, id) == 0
    ensures Effects(commits, id) == 1 ==>
              exists i | 0 <= i < |commits| :: commits[i].lease.message == id && commits[i].writes == Writes(commits, id)
  {
    if commits != [] {
      var before := commits[..|commits| - 1];
      OnlyLastCommits(before, id);
      assert commits[|commits| - 1].lease.message == id ==> commits[|commits| - 1].last;
      if Effects(before, id) == 1 {
        var i :| 0 <= i < |before| && before[i].lease.message == id && before[i].writes == Writes(before, id);
        assert commits[i] == before[i];
      }
    }
  }

  /** Exactly once: in every run, whatever interleaving of claims, crashes, expiries,
      redeliveries, reconciles and replays and whatever clocks, a message has one completing
      transaction if its receipt is in the inbox and none otherwise.  If its handler leaves
      the commit to the runtime, that transaction is the only one, and the handler's writes
      are those of that one execution. */
  lemma ExactlyOnce(p: Policy, steps: seq<Step>, id: Id)
    ensures var w := Run(START, p, steps);
            && Effects(w.commits, id)
               == (if id in w.ledger.outbox && ReceiptOf(w.ledger, id) in w.ledger.inbox then 1 else 0)
            && (LeavesCommitToRuntime(w.commits, id) ==>
                  Transactions(w.commits, id) == Effects(w.commits, id)
                  && (Effects(w.commits, id) == 0 ==> Writes(w.commits, id) == 0)
                  && (Effects(w.commits, id) == 1 ==>
                        exists i | 0 <= i < |w.commits| ::
                          w.commits[i].lease.message == id && w.commits[i].writes == Writes(w.commits, id)))
  {
    StartIsFenced();
    RunKeepsFence(START, p, steps);
    var w := Run(START, p, steps);
    if LeavesCommitToRuntime(w.commits, id) {
      OnlyLastCommits(w.commits, id);
    }
  }

  /** The execution row a message contends for is shared with exactly the messages of its
      topic and aggregate key. */
  lemma SerializationDomain(p: Policy, steps: seq<Step>, a: Id, b: Id)
    requires a in Run(START, p, steps).ledger.outbox && b in Run(START, p, steps).ledger.outbox
    ensures var l := Run(START, p, steps).ledger;
            Resource(l, a) == Resource(l, b)
            <==> l.outbox[a].intent.topic == l.outbox[b].intent.topic && l.outbox[a].intent.key == l.outbox[b].intent.key
  {
    RunExtends(START, p, steps);
    var l := Run(START, p, steps).ledger;
    ResourceKeyInjective(l.outbox[a].intent.topic, l.outbox[a].intent.key, l.outbox[b].intent.topic, l.outbox[b].intent.key);
  }
}
