/** Dead letters over whole runs: none is opened while attempts are left, and while one is
    open the message is not executed. */
module DeadLetters {
  import opened Wrappers
  import opened Schema
  import opened Intents
  import opened Publisher
  import opened Protocol
  import opened Publishing
  import opened Fencing
  import opened Effects
  import opened Settling

  // ----- No dead letter before the last attempt -----

  /** If the step opens a letter, the message was out of attempts before it. */
  predicate OnlySpentBuried(l: Ledger, l': Ledger, p: Policy, id: Id) {
    OpenLetter(l', id) && !OpenLetter(l, id) ==> id in l.outbox && l.outbox[id].attempts >= p.maxAttempts
  }

  lemma FinishBuriesSpent(w: World, p: Policy, owner: string, error: Option<string>, now: int, id: Id)
    requires TicketsTrue(w) && owner in w.tickets
    ensures OnlySpentBuried(w.ledger, Store(w, Finish(w.ledger, p, w.tickets[owner], error, now)).ledger, p, id)
  {
    FinishEffect(w.ledger, p, w.tickets[owner], error, now);
  }

  lemma ReconcileBuriesSpent(l: Ledger, p: Policy, now: int, locked: set<Id>, id: Id)
    ensures OnlySpentBuried(l, Publisher.Reconcile(l, p, now, locked), p, id)
  {
    if id in l.outbox {
      ReconcileEffect(l, p, now, locked, id);
    }
  }

  predicate WritesJournal(s: Step) {
    s.FinishStep? || s.ReconcileStep? || s.ReplayStep?
  }

  lemma ClaimKeepsJournal(w: World, p: Policy, owner: string, now: int, locked: set<Id>)
    ensures ClaimWorld(w, p, owner, now, locked).ledger.dead == w.ledger.dead
  {
  }

  lemma BatchKeepsJournal(w: World, s: Step)
    ensures BatchWorld(w, s).ledger.dead == w.ledger.dead
  {
  }

  lemma EnqueueKeepsJournal(w: World, e: Event, newId: Id, now: int)
    ensures EnqueueWorld(w, e, newId, now).ledger.dead == w.ledger.dead
  {
  }

  lemma OthersKeepJournal(w: World, p: Policy, s: Step)
    requires !WritesJournal(s)
    ensures Move(w, p, s).ledger.dead == w.ledger.dead
  {
    if s.EnqueueStep? {
      EnqueueKeepsJournal(w, s.event, s.newId, s.now);
    } else if s.ClaimStep? {
      ClaimKeepsJournal(w, p, s.owner, s.now, s.locked);
    } else if IsBatch(s) {
      BatchKeepsJournal(w, s);
    } else {
      ConsumerMoves(w, p, s);
    }
  }

  lemma ReplayClosesOnly(w: World, p: Policy, other: Id, now: int, id: Id)
    ensures OpenLetter(ReplayWorld(w, p, other, now).ledger, id) ==> OpenLetter(w.ledger, id)
    ensures ReplayWorld(w, p, other, now).ledger.dead.Keys == w.ledger.dead.Keys
    ensures other != id && OpenLetter(w.ledger, id) ==> OpenLetter(ReplayWorld(w, p, other, now).ledger, id)
  {
    ReplayEffect(w.ledger, p, other, now);
  }

  lemma StepBuriesSpent(w: World, p: Policy, s: Step, id: Id)
    requires TicketsTrue(w)
    ensures OnlySpentBuried(w.ledger, Move(w, p, s).ledger, p, id)
  {
    if s.FinishStep? {
      if s.owner in w.tickets {
        FinishBuriesSpent(w, p, s.owner, s.error, s.now, id);
      }
    } else if s.ReconcileStep? {
      ReconcileBuriesSpent(w.ledger, p, s.now, s.locked, id);
    } else if s.ReplayStep? {
      ReplayClosesOnly(w, p, s.id, s.now, id);
    } else {
      OthersKeepJournal(w, p, s);
    }
  }

  lemma {:induction false} NewOwnersBefore(w: World, p: Policy, steps: seq<Step>, i: nat)
    requires NewOwners(w, p, steps) && i <= |steps|
    ensures NewOwners(w, p, steps[..i])
  {
    if i < |steps| {
      NewOwnersBefore(w, p, steps[..|steps| - 1], i);
      assert steps[..|steps| - 1][..i] == steps[..i];
    } else {
      assert steps[..i] == steps;
    }
  }

  /** In every run of the durable path, at every step of it: a message whose dead letter opens
      was out of attempts, and publishers had claimed it at least max_attempts times since its
      enqueue or last replay. */
  lemma NoEarlyDeadLetter(p: Policy, steps: seq<Step>, i: nat, id: Id)
    requires ValidPolicy(p) && AllDurable(steps) && NewOwners(START, p, steps) && i < |steps|
    ensures var w := Run(START, p, steps[..i]);
            !(id in w.ledger.dead && w.ledger.dead[id].replayedAt.None?)
            && (var l' := Run(START, p, steps[..i + 1]).ledger; id in l'.dead && l'.dead[id].replayedAt.None?) ==>
              && id in w.ledger.outbox && w.ledger.outbox[id].attempts >= p.maxAttempts
              && id in w.claims && w.claims[id] >= p.maxAttempts
  {
    var w := Run(START, p, steps[..i]);
    NewOwnersBefore(START, p, steps, i);
    StartIsPub(p);
    RunKeepsPub(START, p, steps[..i]);
    assert steps[..i + 1][..i] == steps[..i];
    StepBuriesSpent(w, p, steps[i], id);
    if id in w.ledger.outbox {
      assert id in w.claims.Keys;
    }
  }

  /** A publish error with attempts left is a retry: no letter, and the next claim may take
      the row once its backoff is over and its schedule has come. */
  lemma ErrorIsRetried(l: Ledger, p: Policy, t: Ticket, error: string, now: int, later: int)
    requires Owned(l, t.id, t.owner, now) && l.outbox[t.id].intent.topic in p.topics && !OpenLetter(l, t.id)
    requires error != "" && t.attempts < p.maxAttempts
    ensures var r := Finish(l, p, t, Some(error), now);
            r.Success? && !OpenLetter(r.value, t.id)
            && (Waiting(r.value, p, later, {}, t.id)
                <==> now + BackoffSeconds(t.attempts) * 1_000_000 <= later && ScheduleCame(l.outbox[t.id], later))
  {
    FinishEffect(l, p, t, Some(error), now);
  }

  // ----- A dead-lettered message is not executed -----

  /** The letter is open, and nobody has read the message or holds a lease of it. */
  ghost predicate Shelved(w: World, id: Id) {
    && OpenLetter(w.ledger, id)
    && (forall pid | pid in w.seen :: w.seen[pid] != id)
    && (forall pid | pid in w.sessions :: w.sessions[pid].lease.message != id)
  }

  /** No commit of the message and no receipt for it has been added. */
  ghost predicate Untouched(w: World, w': World, id: Id) {
    && Transactions(w'.commits, id) == Transactions(w.commits, id)
    && forall r: Receipt | r.message == id :: r in w'.ledger.inbox <==> r in w.ledger.inbox
  }

  lemma SessionStaysShelved(w: World, p: Policy, s: Step, id: Id)
    requires Shelved(w, id) && !s.CommitStep?
    ensures Shelved(SessionWorld(w, p, s), id) && Untouched(w, SessionWorld(w, p, s), id)
  {
  }

  lemma CommitStaysShelved(w: World, pid: Pid, last: bool, now: int, id: Id)
    requires Shelved(w, id) && pid in w.sessions && w.sessions[pid].phase.Working?
    ensures Shelved(CommitWorld(w, pid, last, now), id) && Untouched(w, CommitWorld(w, pid, last, now), id)
  {
    var w' := CommitWorld(w, pid, last, now);
    if w'.commits != w.commits {
      assert w'.commits[..|w'.commits| - 1] == w.commits;
    }
  }

  lemma AcquireStaysShelved(w: World, p: Policy, pid: Pid, owner: Uuid, now: int, id: Id)
    requires Shelved(w, id)
    ensures var w' := AcquireWorld(w, p, pid, owner, now); Shelved(w', id) && Untouched(w, w', id)
  {
    if pid in w.seen && w.seen[pid] in w.ledger.outbox {
      AcquireConsumerOnly(w.ledger, p, w.seen[pid], owner, now);
      AcquireEffect(w.ledger, p, w.seen[pid], owner, now);
    }
  }

  lemma ReadStaysShelved(w: World, p: Policy, s: Step, id: Id)
    requires Shelved(w, id) && s.ReadStep?
    ensures Shelved(ConsumerWorld(w, p, s), id) && Untouched(w, ConsumerWorld(w, p, s), id)
  {
    EligibleEffect(w.ledger, p, s.now, s.id);
  }

  lemma ConsumerStaysShelved(w: World, p: Policy, s: Step, id: Id)
    requires Shelved(w, id) && !s.EnqueueStep? && !IsPublisher(s) && !IsBatch(s)
    ensures Shelved(ConsumerWorld(w, p, s), id) && Untouched(w, ConsumerWorld(w, p, s), id)
  {
    if s.ReadStep? {
      ReadStaysShelved(w, p, s, id);
    } else if s.AcquireStep? {
      AcquireStaysShelved(w, p, s.pid, s.newOwner, s.now, id);
    } else if s.CommitStep? {
      CommitMoves(w, p, s);
      if s.pid in w.sessions && w.sessions[s.pid].phase.Working? {
        CommitStaysShelved(w, s.pid, s.last, s.now, id);
      }
    } else {
      SessionStaysShelved(w, p, s, id);
    }
  }

  lemma LetterStaysOpen(w: World, p: Policy, s: Step, id: Id)
    requires !Replays(s, id) && OpenLetter(w.ledger, id)
    ensures OpenLetter(Move(w, p, s).ledger, id)
  {
    if s.FinishStep? {
      if s.owner in w.tickets {
        FinishEffect(w.ledger, p, w.tickets[s.owner], s.error, s.now);
      }
    } else if s.ReconcileStep? {
      ReconcileEffects(w.ledger, p, s.now, s.locked, id);
    } else if s.ReplayStep? {
      ReplayClosesOnly(w, p, s.id, s.now, id);
    } else {
      OthersKeepJournal(w, p, s);
    }
  }

  /** Letters stay open, and only messages get one. */
  lemma ReconcileEffects(l: Ledger, p: Policy, now: int, locked: set<Id>, id: Id)
    ensures OpenLetter(l, id) ==> OpenLetter(Publisher.Reconcile(l, p, now, locked), id)
    ensures id in Publisher.Reconcile(l, p, now, locked).dead ==> id in l.dead || id in l.outbox
  {
    if id in l.outbox {
      ReconcileEffect(l, p, now, locked, id);
    }
  }

  lemma OthersLeaveInbox(w: World, p: Policy, s: Step)
    requires s.EnqueueStep? || IsPublisher(s) || IsBatch(s)
    ensures SameProcesses(w, Move(w, p, s)) && Move(w, p, s).ledger.inbox == w.ledger.inbox
  {
    if !s.EnqueueStep? {
      PublisherMoves(w, p, s);
    }
  }

  lemma MoveStaysShelved(w: World, p: Policy, s: Step, id: Id)
    requires Shelved(w, id) && !Replays(s, id)
    ensures Shelved(Move(w, p, s), id) && Untouched(w, Move(w, p, s), id)
  {
    if s.EnqueueStep? || IsPublisher(s) || IsBatch(s) {
      OthersLeaveInbox(w, p, s);
      LetterStaysOpen(w, p, s, id);
    } else {
      ConsumerStaysShelved(w, p, s, id);
    }
  }

  /** From a state where the message is dead-lettered and nobody has begun to execute it, every
      run without its replay gives it no read, no lease, no commit and no receipt. */
  lemma {:induction false} DeadLetteredIsNotExecuted(w: World, p: Policy, steps: seq<Step>, id: Id)
    requires Shelved(w, id) && NoReplay(steps, id)
    ensures Shelved(Run(w, p, steps), id) && Untouched(w, Run(w, p, steps), id)
  {
    if steps != [] {
      DeadLetteredIsNotExecuted(w, p, steps[..|steps| - 1], id);
      MoveStaysShelved(Run(w, p, steps[..|steps| - 1]), p, steps[|steps| - 1], id);
    }
  }

  // ----- The journal knows only messages -----

  lemma MoveKeepsJournal(w: World, p: Policy, s: Step, id: Id)
    requires w.ledger.dead.Keys <= w.ledger.outbox.Keys && id in Move(w, p, s).ledger.dead
    ensures id in w.ledger.outbox
  {
    if s.FinishStep? {
      if s.owner in w.tickets {
        FinishEffect(w.ledger, p, w.tickets[s.owner], s.error, s.now);
      }
    } else if s.ReconcileStep? {
      ReconcileEffects(w.ledger, p, s.now, s.locked, id);
    } else if s.ReplayStep? {
      ReplayClosesOnly(w, p, s.id, s.now, id);
    } else {
      OthersKeepJournal(w, p, s);
    }
  }

  /** In every run only stored messages have dead letters, so a new row has none. */
  lemma {:induction false} RunKeepsJournal(p: Policy, steps: seq<Step>)
    ensures Run(START, p, steps).ledger.dead.Keys <= Run(START, p, steps).ledger.outbox.Keys
  {
    if steps != [] {
      RunKeepsJournal(p, steps[..|steps| - 1]);
      RunExtends(START, p, steps[..|steps| - 1]);
      StepExtends(Run(START, p, steps[..|steps| - 1]), p, steps[|steps| - 1]);
      forall id | id in Run(START, p, steps).ledger.dead
        ensures id in Run(START, p, steps[..|steps| - 1]).ledger.outbox
      {
        MoveKeepsJournal(Run(START, p, steps[..|steps| - 1]), p, steps[|steps| - 1], id);
      }
    }
  }
}
