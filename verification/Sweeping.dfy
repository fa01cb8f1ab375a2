/** Reconcile: the steps of its loops, that it is idempotent, and what it leaves alone. */
module Sweeping {
  import opened Wrappers
  import opened Schema
  import opened Publisher

  /** The overdue rows of some topics. */
  function OverdueIn(l: Ledger, p: Policy, now: int, locked: set<Id>, topics: set<string>): set<Id> {
    set id | id in OverdueSet(l, p, now, locked) && l.outbox[id].intent.topic in topics
  }

  function RequeueOne(l: Ledger, id: Id): Ledger
    requires id in l.outbox
  {
    l.(outbox := l.outbox[id := RequeuedRow(l.outbox[id])])
  }

  lemma SweepNothing(l: Ledger, p: Policy, now: int)
    ensures Sweep(l, p, {}, {}, now) == l
  {
    assert Retriable(l, p, {}) == {};
  }

  lemma SweepExhausted(l: Ledger, p: Policy, exhausted: set<Id>, id: Id, now: int)
    ensures Bury(Sweep(l, p, exhausted, {}, now), id, EXHAUSTED_CODE, now) == Sweep(l, p, exhausted + {id}, {}, now)
  {
    assert Retriable(l, p, {}) == {};
  }

  lemma RetriableOne(l: Ledger, p: Policy, done: set<Id>, id: Id)
    requires done <= l.outbox.Keys && id in l.outbox && id !in done
    ensures var r, r' := Retriable(l, p, done), Retriable(l, p, done + {id});
            if l.outbox[id].attempts < p.maxAttempts
            then r' == r + {id} && (done + {id}) - r' == done - r && |r'| == |r| + 1
            else r' == r && (done + {id}) - r' == done - r + {id}
  {
    var r, r' := Retriable(l, p, done), Retriable(l, p, done + {id});
    if l.outbox[id].attempts < p.maxAttempts {
      assert r' == r + {id};
    } else {
      assert r' == r;
    }
  }

  lemma BuriedOne(dead: map<Id, DeadLetter>, exhausted: set<Id>, spent: set<Id>, id: Id, now: int)
    requires id !in exhausted
    ensures Buried(dead, exhausted, spent + {id}, now)
            == Buried(dead, exhausted, spent, now)[id := DeadLetter(UNACKNOWLEDGED_CODE, now, None)]
  {
  }

  lemma RequeuedOne(outbox: map<Id, Message>, requeue: set<Id>, id: Id)
    requires id in outbox
    ensures Requeued(outbox, requeue + {id}) == Requeued(outbox, requeue)[id := RequeuedRow(outbox[id])]
  {
  }

  /** One more overdue row, buried or requeued as its attempts say. */
  lemma SweepOverdue(l: Ledger, p: Policy, exhausted: set<Id>, done: set<Id>, id: Id, now: int)
    requires done <= l.outbox.Keys && id in l.outbox && id !in done && id !in exhausted
    ensures Sweep(l, p, exhausted, done, now).outbox[id] == l.outbox[id]
    ensures l.outbox[id].attempts >= p.maxAttempts ==>
              Sweep(l, p, exhausted, done + {id}, now)
              == Bury(Sweep(l, p, exhausted, done, now), id, UNACKNOWLEDGED_CODE, now)
              && |Retriable(l, p, done + {id})| == |Retriable(l, p, done)|
    ensures l.outbox[id].attempts < p.maxAttempts ==>
              Sweep(l, p, exhausted, done + {id}, now)
              == RequeueOne(Sweep(l, p, exhausted, done, now), id)
              && |Retriable(l, p, done + {id})| == |Retriable(l, p, done)| + 1
  {
    RetriableOne(l, p, done, id);
    BuriedOne(l.dead, exhausted, done - Retriable(l, p, done), id, now);
    RequeuedOne(l.outbox, Retriable(l, p, done), id);
  }

  lemma OverdueNotExhausted(l: Ledger, p: Policy, now: int, locked: set<Id>)
    ensures OverdueSet(l, p, now, locked) !! ExhaustedSet(l, p, now, locked)
  {
  }

  /** The topic's query in the swept ledger finds the rows it would have found before. */
  lemma TopicRows(l: Ledger, p: Policy, now: int, locked: set<Id>, done: set<string>, topic: string)
    requires topic in p.topics && p.topics[topic].Some? && topic !in done
    ensures var s := Sweep(l, p, ExhaustedSet(l, p, now, locked), OverdueIn(l, p, now, locked, done), now);
            (set id | id in s.outbox.Keys && id !in locked && Unacknowledged(s, p, now, topic, id))
            == OverdueIn(l, p, now, locked, {topic})
  {
    var exhausted := ExhaustedSet(l, p, now, locked);
    var s := Sweep(l, p, exhausted, OverdueIn(l, p, now, locked, done), now);
    forall id | id in l.outbox && l.outbox[id].intent.topic == topic && l.outbox[id].status.Published?
      ensures Unacknowledged(s, p, now, topic, id) == Unacknowledged(l, p, now, topic, id)
    {
      assert id !in exhausted;
      assert s.outbox[id] == l.outbox[id];
      assert IsDead(s, id) == IsDead(l, id);
      assert Executing(s, now, id) == Executing(l, now, id);
    }
  }

  lemma OverdueSplits(l: Ledger, p: Policy, now: int, locked: set<Id>, done: set<string>, topic: string)
    requires topic in p.topics
    ensures OverdueIn(l, p, now, locked, done + {topic})
            == OverdueIn(l, p, now, locked, done) + OverdueIn(l, p, now, locked, {topic})
    ensures p.topics[topic].None? ==> OverdueIn(l, p, now, locked, {topic}) == {}
  {
  }

  // ----- What a reconcile does and does not touch -----

  /** A second reconcile at the same clock selects nothing. */
  lemma NothingLeftToSweep(l: Ledger, p: Policy, now: int, locked: set<Id>)
    ensures ExhaustedSet(Reconcile(l, p, now, locked), p, now, locked) == {}
    ensures OverdueSet(Reconcile(l, p, now, locked), p, now, locked) == {}
  {
    var l' := Reconcile(l, p, now, locked);
    forall id | id in l'.outbox && id !in locked
      ensures !Exhausted(l', p, now, id) && !Overdue(l', p, now, id)
    {
      if Overdue(l, p, now, id) {
        assert l.outbox[id].attempts < p.maxAttempts || IsDead(l', id);
      } else {
        assert l'.outbox[id] == l.outbox[id];
        assert Executing(l', now, id) == Executing(l, now, id);
        assert Exhausted(l, p, now, id) ==> IsDead(l', id);
      }
    }
  }

  /** At a fixed clock reconcile is idempotent: the second run returns 0 and changes
      nothing. */
  lemma ReconcileIdempotent(l: Ledger, p: Policy, now: int, locked: set<Id>)
    ensures var l' := Reconcile(l, p, now, locked);
            Reconcile(l', p, now, locked) == l' && ReconcileCount(l', p, now, locked) == 0
  {
    var l' := Reconcile(l, p, now, locked);
    NothingLeftToSweep(l, p, now, locked);
    SweepNothing(l', p, now);
    assert Retriable(l', p, {}) == {};
  }

  predicate Touched(l: Ledger, l': Ledger, id: Id)
    requires id in l.outbox && id in l'.outbox
  {
    l'.outbox[id] != l.outbox[id] || IsDead(l', id) != IsDead(l, id)
  }

  predicate HasReceipt(l: Ledger, consumer: Option<string>, id: Id) {
    consumer.Some? && Receipt(consumer.value, id) in l.inbox
  }

  /** Complete for its policy: received, or for a hint published. */
  predicate Done(l: Ledger, consumer: Option<string>, id: Id)
    requires id in l.outbox
  {
    if consumer.None? then l.outbox[id].status.Published? else HasReceipt(l, consumer, id)
  }

  /** Registered, and complete for its policy. */
  predicate Complete(l: Ledger, p: Policy, id: Id) {
    && id in l.outbox
    && l.outbox[id].intent.topic in p.topics
    && Done(l, p.topics[l.outbox[id].intent.topic], id)
  }

  predicate Acknowledged(l: Ledger, p: Policy, id: Id) {
    && id in l.outbox
    && l.outbox[id].intent.topic in p.topics
    && p.topics[l.outbox[id].intent.topic].Some?
    && Receipt(p.topics[l.outbox[id].intent.topic].value, id) in l.inbox
  }

  /** Reconcile changes exactly the rows its two selections name. */
  lemma ReconcileTouches(l: Ledger, p: Policy, now: int, locked: set<Id>, id: Id)
    requires id in l.outbox
    ensures Touched(l, Reconcile(l, p, now, locked), id)
            <==> id !in locked && (Exhausted(l, p, now, id) || Overdue(l, p, now, id))
  {
    if id !in locked && Overdue(l, p, now, id) {
      assert l.outbox[id].status.Published? && !IsDead(l, id);
    }
  }

  /** The guard of the topic's statement protects acknowledged, executing and dead-lettered
      messages; the first statement has no such guard, so one of them is touched if and only
      if it is out of attempts and waiting for a publisher. */
  lemma ProtectedUnlessExhausted(l: Ledger, p: Policy, now: int, locked: set<Id>, id: Id)
    requires Acknowledged(l, p, id) || (id in l.outbox && (Executing(l, now, id) || IsDead(l, id)))
    ensures Touched(l, Reconcile(l, p, now, locked), id) <==> id !in locked && Exhausted(l, p, now, id)
    ensures IsDead(l, id) ==> !Touched(l, Reconcile(l, p, now, locked), id)
  {
    ReconcileTouches(l, p, now, locked, id);
  }

  /** The returned count is the number of messages made pending. */
  lemma CountIsMadePending(l: Ledger, p: Policy, now: int, locked: set<Id>)
    ensures var l' := Reconcile(l, p, now, locked);
            ReconcileCount(l, p, now, locked)
            == |set id | id in l.outbox.Keys && l'.outbox[id].status.Pending? && !l.outbox[id].status.Pending?|
  {
    var l' := Reconcile(l, p, now, locked);
    assert Retriable(l, p, OverdueSet(l, p, now, locked))
        == set id | id in l.outbox.Keys && l'.outbox[id].status.Pending? && !l.outbox[id].status.Pending?;
  }
}
