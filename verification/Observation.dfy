/** The gauges, and that they agree with what the runtime would do. */
module Observation {
  import opened Wrappers
  import opened Clock
  import opened Schema
  import opened Publisher
  import opened Effects
  import opened Sweeping
  import opened Delivery

  datatype Gauges = Gauges(
    policy: string,
    receiptRequired: bool,
    messages: nat,
    retainedReceipts: nat,
    latestReceipt: int,
    incomplete: nat,
    scheduled: nat,
    publishable: nat,
    awaitingReceipt: nat,
    activeExecutions: nat,
    expiredLeases: nat,
    deadLetters: nat,
    reconcileCandidates: nat,
    oldestAge: int)

  datatype Snapshot = Snapshot(unregistered: nat, topics: map<string, Gauges>)

  // ----- The facts of one message -----

  predicate OfTopic(l: Ledger, topic: string, id: Id) {
    id in l.outbox && l.outbox[id].intent.topic == topic
  }

  function TopicIds(l: Ledger, topic: string): set<Id> {
    set id | id in l.outbox.Keys && OfTopic(l, topic, id)
  }

  function Received(l: Ledger, consumer: Option<string>, topic: string): set<Id> {
    set id | id in TopicIds(l, topic) && HasReceipt(l, consumer, id)
  }

  function Incomplete(l: Ledger, consumer: Option<string>, topic: string): set<Id> {
    set id | id in TopicIds(l, topic) && !Done(l, consumer, id)
  }

  function Publishable(l: Ledger, consumer: Option<string>, topic: string, now: int): set<Id> {
    set id | id in Incomplete(l, consumer, topic)
             && !IsDead(l, id) && !Executing(l, now, id)
             && Due(l.outbox[id].intent, now) && Reached(l.outbox[id].availableAt, now) && Open(l.outbox[id], now)
  }

  function Candidates(l: Ledger, consumer: Option<string>, topic: string, leaseSeconds: nat, now: int): set<Id> {
    set id | id in Incomplete(l, consumer, topic)
             && !Executing(l, now, id) && !IsDead(l, id) && consumer.Some?
             && l.outbox[id].status.Published? && l.outbox[id].publishedAt.Some?
             && l.outbox[id].publishedAt.value < now - leaseSeconds * SECOND
  }

  function Awaiting(l: Ledger, consumer: Option<string>, topic: string): set<Id> {
    set id | id in Incomplete(l, consumer, topic) && l.outbox[id].status.Published? && consumer.Some?
  }

  // ----- Extremes -----

  predicate IsGreatest(s: set<int>, m: int) {
    m in s && forall x | x in s :: x <= m
  }

  lemma {:induction false} GreatestExists(s: set<int>)
    ensures s == {} || exists m :: IsGreatest(s, m)
    decreases |s|
  {
    if forall x :: x !in s {
      assert s == {};
    } else {
      var x :| x in s;
      GreatestExists(s - {x});
      assert forall y | y in s && y != x :: y in s - {x};
      if s - {x} == {} {
        assert IsGreatest(s, x);
      } else {
        var y :| IsGreatest(s - {x}, y);
        assert IsGreatest(s, if x < y then y else x);
      }
    }
  }

  /** coalesce(max(...), 0) */
  function Greatest(s: set<int>): (m: int)
    ensures if s == {} then m == 0 else IsGreatest(s, m)
  {
    if s == {} then 0 else
      GreatestExists(s);
      var m :| m in s && IsGreatest(s, m);
      m
  }

  function ReceiptTimes(l: Ledger, consumer: Option<string>, topic: string): set<int> {
    set id | id in Received(l, consumer, topic) && consumer.Some? && Receipt(consumer.value, id) in l.inbox ::
      l.inbox[Receipt(consumer.value, id)]
  }

  /** Incomplete, not dead-lettered and due, active work included. */
  function DueWork(l: Ledger, consumer: Option<string>, topic: string, now: int): set<Id> {
    set id | id in Incomplete(l, consumer, topic) && !IsDead(l, id) && Due(l.outbox[id].intent, now)
  }

  /** Since its creation or its schedule, whichever is later; a clock set back gives 0. */
  function Age(m: Message, now: int): int {
    var start := if NOT_BEFORE_HEADER in m.intent.headers && m.intent.headers[NOT_BEFORE_HEADER].Stamp?
                    && m.intent.headers[NOT_BEFORE_HEADER].ticks > m.createdAt
                 then m.intent.headers[NOT_BEFORE_HEADER].ticks else m.createdAt;
    if now - start < 0 then 0 else now - start
  }

  function Ages(l: Ledger, ids: set<Id>, now: int): set<int>
    requires ids <= l.outbox.Keys
  {
    set id | id in ids :: Age(l.outbox[id], now)
  }

  /** The aggregate query of one topic. */
  function Observe(l: Ledger, name: string, p: Policy, topic: string, now: int): Gauges
    requires topic in p.topics
  {
    var consumer := p.topics[topic];
    var incomplete := Incomplete(l, consumer, topic);
    Gauges(
      name, consumer.Some?,
      |TopicIds(l, topic)|,
      |Received(l, consumer, topic)|,
      Greatest(ReceiptTimes(l, consumer, topic)),
      |incomplete|,
      |set id | id in incomplete && !Due(l.outbox[id].intent, now)|,
      |Publishable(l, consumer, topic, now)|,
      |Awaiting(l, consumer, topic)|,
      |set id | id in incomplete && Executing(l, now, id)|,
      |set id | id in incomplete && l.outbox[id].status.Delivering? && Lapsed(l.outbox[id], now)|,
      |set id | id in TopicIds(l, topic) && IsDead(l, id)|,
      |Candidates(l, consumer, topic, p.leaseSeconds, now)|,
      Greatest(Ages(l, DueWork(l, consumer, topic, now), now)))
  }

  // ----- Collecting -----

  function TopicsOf(policies: map<string, Policy>, names: set<string>): set<string>
    requires names <= policies.Keys
  {
    set n, t | n in names && t in policies[n].topics :: t
  }

  function AllTopics(policies: map<string, Policy>): set<string> {
    TopicsOf(policies, policies.Keys)
  }

  predicate Disjoint(p: Policy, q: Policy) {
    p.topics.Keys !! q.topics.Keys
  }

  predicate ValidPolicies(policies: map<string, Policy>) {
    && |policies| <= 16
    && (forall n | n in policies :: IsName(n) && forall t | t in policies[n].topics :: IsName(t))
    && (forall a, b | a in policies && b in policies && a != b :: Disjoint(policies[a], policies[b]))
    && |AllTopics(policies)| <= 128
  }

  function Unregistered(l: Ledger, topics: set<string>): set<Id> {
    set id | id in l.outbox.Keys && l.outbox[id].intent.topic !in topics
  }

  ghost predicate IsGauge(l: Ledger, name: string, p: Policy, topic: string, now: int, g: Gauges) {
    topic in p.topics && g == Observe(l, name, p, topic, now)
  }

  /** Every topic of the policy is observed under that policy. */
  ghost predicate Covers(l: Ledger, name: string, p: Policy, now: int, topics: map<string, Gauges>) {
    forall t | t in p.topics :: t in topics && IsGauge(l, name, p, t, now, topics[t])
  }

  ghost predicate AreGauges(l: Ledger, name: string, p: Policy, now: int, topics: map<string, Gauges>) {
    forall t | t in topics :: IsGauge(l, name, p, t, now, topics[t])
  }

  lemma MoreGauges(l: Ledger, name: string, p: Policy, now: int, topics: map<string, Gauges>, t: string, g: Gauges)
    requires AreGauges(l, name, p, now, topics) && IsGauge(l, name, p, t, now, g)
    ensures AreGauges(l, name, p, now, topics[t := g])
  {
  }

  lemma CoversMore(l: Ledger, name: string, p: Policy, now: int, topics: map<string, Gauges>, more: map<string, Gauges>)
    requires Covers(l, name, p, now, topics) && more.Keys !! p.topics.Keys
    ensures Covers(l, name, p, now, topics + more)
  {
  }

  lemma CoversOwn(l: Ledger, name: string, p: Policy, now: int, topics: map<string, Gauges>, more: map<string, Gauges>)
    requires Covers(l, name, p, now, more)
    ensures Covers(l, name, p, now, topics + more)
  {
  }

  /** The inner loop: the topics of one policy. */
  method ObserveTopics(db: Database, name: string, p: Policy, now: int) returns (topics: map<string, Gauges>)
    ensures topics.Keys == p.topics.Keys && Covers(db.State(), name, p, now, topics)
  {
    topics := map[];
    var todo := p.topics.Keys;
    while todo != {}
      invariant todo <= p.topics.Keys && topics.Keys == p.topics.Keys - todo
      invariant AreGauges(db.State(), name, p, now, topics)
    {
      var t :| t in todo;
      var g := Observe(db.State(), name, p, t, now);
      MoreGauges(db.State(), name, p, now, topics, t, g);
      topics, todo := topics[t := g], todo - {t};
    }
  }

  lemma TopicsOfMore(policies: map<string, Policy>, names: set<string>, n: string)
    requires names <= policies.Keys && n in policies
    ensures TopicsOf(policies, names + {n}) == TopicsOf(policies, names) + policies[n].topics.Keys
  {
  }

  ghost predicate CoversAll(l: Ledger, policies: map<string, Policy>, names: set<string>, now: int,
                            topics: map<string, Gauges>)
    requires names <= policies.Keys
  {
    forall n | n in names :: Covers(l, n, policies[n], now, topics)
  }

  lemma CoversNext(l: Ledger, policies: map<string, Policy>, names: set<string>, n: string, now: int,
                   topics: map<string, Gauges>, more: map<string, Gauges>)
    requires names <= policies.Keys && n in policies && CoversAll(l, policies, names, now, topics)
    requires forall a | a in names :: Disjoint(policies[a], policies[n])
    requires more.Keys == policies[n].topics.Keys && Covers(l, n, policies[n], now, more)
    ensures CoversAll(l, policies, names + {n}, now, topics + more)
  {
    CoversOwn(l, n, policies[n], now, topics, more);
    forall a | a in names
      ensures Covers(l, a, policies[a], now, topics + more)
    {
      assert Disjoint(policies[a], policies[n]);
      CoversMore(l, a, policies[a], now, topics, more);
    }
  }

  /** The outer loop, over policies whose topics do not overlap. */
  method ObservePolicies(db: Database, policies: map<string, Policy>, now: int) returns (topics: map<string, Gauges>)
    requires forall a, b | a in policies && b in policies && a != b :: Disjoint(policies[a], policies[b])
    ensures topics.Keys == AllTopics(policies) && CoversAll(db.State(), policies, policies.Keys, now, topics)
  {
    topics := map[];
    var names := policies.Keys;
    ghost var done: set<string> := {};
    while names != {}
      invariant done + names == policies.Keys && done !! names
      invariant topics.Keys == TopicsOf(policies, done)
      invariant CoversAll(db.State(), policies, done, now, topics)
    {
      var n :| n in names;
      var observed := ObserveTopics(db, n, policies[n], now);
      CoversNext(db.State(), policies, done, n, now, topics, observed);
      TopicsOfMore(policies, done, n);
      topics, names := topics + observed, names - {n};
      done := done + {n};
    }
    assert done == policies.Keys;
  }

  // ----- The gauges and the runtime -----

  function InTopic(l: Ledger, all: set<Id>, topic: string): set<Id> {
    set id | id in all && OfTopic(l, topic, id)
  }

  function InTopics(l: Ledger, all: set<Id>, topics: set<string>): set<Id>
    requires all <= l.outbox.Keys
  {
    set id | id in all && l.outbox[id].intent.topic in topics
  }

  /** What claim_delivery may pick, less the complete and the executing. */
  function ReadySet(l: Ledger, p: Policy, now: int): set<Id> {
    set id | id in ClaimableSet(l, p, now, {})
             && !Done(l, p.topics[l.outbox[id].intent.topic], id) && !Executing(l, now, id)
  }

  /** The publishable messages of a topic are exactly those claim_delivery may pick, less the
      complete and the executing. */
  lemma PublishableIsReady(l: Ledger, p: Policy, topic: string, now: int)
    requires topic in p.topics
    ensures Publishable(l, p.topics[topic], topic, now) == InTopic(l, ReadySet(l, p, now), topic)
  {
  }

  /** A topic's candidates are the rows its reconcile statement selects. */
  lemma CandidatesAreOverdue(l: Ledger, p: Policy, topic: string, now: int)
    requires topic in p.topics
    ensures Candidates(l, p.topics[topic], topic, p.leaseSeconds, now) == InTopic(l, OverdueSet(l, p, now, {}), topic)
  {
  }

  lemma ObserveCounts(l: Ledger, name: string, p: Policy, topic: string, now: int)
    requires topic in p.topics
    ensures var g := Observe(l, name, p, topic, now);
            && g.messages == |InTopic(l, l.outbox.Keys, topic)|
            && g.publishable == |InTopic(l, ReadySet(l, p, now), topic)|
            && g.reconcileCandidates == |InTopic(l, OverdueSet(l, p, now, {}), topic)|
  {
    PublishableIsReady(l, p, topic, now);
    CandidatesAreOverdue(l, p, topic, now);
    assert TopicIds(l, topic) == InTopic(l, l.outbox.Keys, topic);
  }

  // ----- Sums over topics -----

  ghost function Pick(s: set<string>): string
    requires s != {}
  {
    var x :| x in s; x
  }

  ghost function Sum(gauges: map<string, nat>, topics: set<string>): nat
    requires topics <= gauges.Keys
    decreases |topics|
  {
    if topics == {} then 0 else
      var t := Pick(topics);
      gauges[t] + Sum(gauges, topics - {t})
  }

  lemma InTopicsSplits(l: Ledger, all: set<Id>, topics: set<string>, t: string)
    requires all <= l.outbox.Keys && t in topics
    ensures |InTopics(l, all, topics)| == |InTopic(l, all, t)| + |InTopics(l, all, topics - {t})|
  {
    var own, rest := InTopic(l, all, t), InTopics(l, all, topics - {t});
    assert InTopics(l, all, topics) == own + rest && own !! rest;
  }

  ghost predicate CountsTopics(l: Ledger, gauges: map<string, nat>, all: set<Id>) {
    forall t | t in gauges :: gauges[t] == |InTopic(l, all, t)|
  }

  /** A gauge that counts, per topic, the messages of that topic in `all` sums to their number
      over all the topics. */
  lemma {:induction false} SumCounts(l: Ledger, gauges: map<string, nat>, topics: set<string>, all: set<Id>)
    requires topics <= gauges.Keys && all <= l.outbox.Keys
    requires CountsTopics(l, gauges, all)
    ensures Sum(gauges, topics) == |InTopics(l, all, topics)|
    decreases |topics|
  {
    if topics == {} {
      assert InTopics(l, all, topics) == {};
    } else {
      var t := Pick(topics);
      SumCounts(l, gauges, topics - {t}, all);
      InTopicsSplits(l, all, topics, t);
    }
  }

  lemma Partition(all: set<Id>, a: set<Id>, b: set<Id>)
    requires all == a + b && a !! b
    ensures |all| == |a| + |b|
  {
  }

  lemma TopicMessages(l: Ledger, policies: map<string, Policy>, now: int, topics: map<string, Gauges>, t: string)
    requires topics.Keys == AllTopics(policies) && CoversAll(l, policies, policies.Keys, now, topics) && t in topics
    ensures topics[t].messages == |InTopic(l, l.outbox.Keys, t)|
  {
    var n :| n in policies && t in policies[n].topics;
    assert Covers(l, n, policies[n], now, topics);
    assert IsGauge(l, n, policies[n], t, now, topics[t]);
    ObserveCounts(l, n, policies[n], t, now);
  }

  /** Conservation: unregistered and the messages of all topics make up the whole outbox. */
  lemma MessagesAddUp(l: Ledger, messages: map<string, nat>)
    requires CountsTopics(l, messages, l.outbox.Keys)
    ensures |Unregistered(l, messages.Keys)| + Sum(messages, messages.Keys) == |l.outbox|
  {
    SumCounts(l, messages, messages.Keys, l.outbox.Keys);
    Partition(l.outbox.Keys, InTopics(l, l.outbox.Keys, messages.Keys), Unregistered(l, messages.Keys));
  }

  /** The hypotheses of the sums, from a snapshot. */
  lemma MessagesCount(l: Ledger, policies: map<string, Policy>, now: int, topics: map<string, Gauges>,
                      messages: map<string, nat>)
    requires topics.Keys == AllTopics(policies) && CoversAll(l, policies, policies.Keys, now, topics)
    requires messages.Keys == topics.Keys && forall t | t in messages :: messages[t] == topics[t].messages
    ensures CountsTopics(l, messages, l.outbox.Keys)
  {
    forall t | t in messages
      ensures messages[t] == |InTopic(l, l.outbox.Keys, t)|
    {
      TopicMessages(l, policies, now, topics, t);
    }
  }

  lemma ReceiptSets(l: Ledger, consumer: Option<string>, topic: string, leaseSeconds: nat, now: int)
    ensures consumer.Some? ==>
              |TopicIds(l, topic)| == |Incomplete(l, consumer, topic)| + |Received(l, consumer, topic)|
    ensures consumer.None? ==>
              Received(l, consumer, topic) == {} && Awaiting(l, consumer, topic) == {}
              && Candidates(l, consumer, topic, leaseSeconds, now) == {}
  {
    if consumer.Some? {
      Partition(TopicIds(l, topic), Incomplete(l, consumer, topic), Received(l, consumer, topic));
    }
  }

  /** Of a topic with a receipt, every message is incomplete or has its receipt retained; of
      a hint, none has a receipt, awaits one or is a candidate. */
  lemma ReceiptsAddUp(l: Ledger, name: string, p: Policy, topic: string, now: int)
    requires topic in p.topics
    ensures var g := Observe(l, name, p, topic, now);
            && (g.receiptRequired <==> p.topics[topic].Some?)
            && (g.receiptRequired ==> g.messages == g.incomplete + g.retainedReceipts)
            && (!g.receiptRequired ==> g.retainedReceipts == 0 && g.awaitingReceipt == 0 && g.reconcileCandidates == 0)
  {
    ReceiptSets(l, p.topics[topic], topic, p.leaseSeconds, now);
  }

  lemma CandidatesCount(l: Ledger, name: string, p: Policy, now: int, candidates: map<string, nat>)
    requires candidates.Keys == p.topics.Keys
    requires forall t | t in candidates :: candidates[t] == Observe(l, name, p, t, now).reconcileCandidates
    ensures CountsTopics(l, candidates, OverdueSet(l, p, now, {}))
  {
    forall t | t in candidates
      ensures candidates[t] == |InTopic(l, OverdueSet(l, p, now, {}), t)|
    {
      ObserveCounts(l, name, p, t, now);
    }
  }

  lemma PublishableCount(l: Ledger, name: string, p: Policy, now: int, publishable: map<string, nat>)
    requires publishable.Keys == p.topics.Keys
    requires forall t | t in publishable :: publishable[t] == Observe(l, name, p, t, now).publishable
    ensures CountsTopics(l, publishable, ReadySet(l, p, now))
  {
    forall t | t in publishable
      ensures publishable[t] == |InTopic(l, ReadySet(l, p, now), t)|
    {
      ObserveCounts(l, name, p, t, now);
    }
  }

  /** Over a policy's topics, reconcile_candidates counts exactly the rows its reconcile would
      requeue, which is the number it returns, or bury for want of an acknowledgement. */
  lemma CandidatesAddUp(l: Ledger, p: Policy, now: int, candidates: map<string, nat>)
    requires candidates.Keys == p.topics.Keys && CountsTopics(l, candidates, OverdueSet(l, p, now, {}))
    ensures Sum(candidates, candidates.Keys) == |OverdueSet(l, p, now, {})|
    ensures |OverdueSet(l, p, now, {})| == ReconcileCount(l, p, now, {}) + |BuriedByTopic(l, p, now)|
  {
    var overdue := OverdueSet(l, p, now, {});
    assert Sum(candidates, candidates.Keys) == |overdue| by {
      SumCounts(l, candidates, candidates.Keys, overdue);
      assert overdue == InTopics(l, overdue, p.topics.Keys);
    }
    Partition(overdue, Retriable(l, p, overdue), BuriedByTopic(l, p, now));
  }

  /** The overdue rows out of attempts: reconcile's dead letters for missing receipts. */
  function BuriedByTopic(l: Ledger, p: Policy, now: int): set<Id> {
    set id | id in OverdueSet(l, p, now, {}) && l.outbox[id].attempts >= p.maxAttempts
  }

  /** Over a policy's topics, publishable_messages counts exactly what claim_delivery may pick,
      less the complete and the executing. */
  lemma PublishableAddUp(l: Ledger, p: Policy, now: int, publishable: map<string, nat>)
    requires publishable.Keys == p.topics.Keys && CountsTopics(l, publishable, ReadySet(l, p, now))
    ensures Sum(publishable, publishable.Keys) == |ReadySet(l, p, now)|
  {
    var ready := ReadySet(l, p, now);
    SumCounts(l, publishable, publishable.Keys, ready);
    assert ready == InTopics(l, ready, p.topics.Keys);
  }

  /** An age is at least a (above zero) exactly when both the creation and the schedule, if
      there is one, are at least that long ago. */
  lemma AgeSinceBoth(m: Message, now: int, a: int)
    ensures Age(m, now) >= a <==>
            a <= 0
            || (m.createdAt + a <= now
                && (NOT_BEFORE_HEADER in m.intent.headers && m.intent.headers[NOT_BEFORE_HEADER].Stamp? ==>
                      m.intent.headers[NOT_BEFORE_HEADER].ticks + a <= now))
  {
  }

  /** The latest receipt is one of those retained and none is later; the oldest age is that of
      some due incomplete message and none is older, and it is never negative. */
  lemma ExtremesAreAttained(l: Ledger, name: string, p: Policy, topic: string, now: int)
    requires topic in p.topics
    ensures var g := Observe(l, name, p, topic, now);
            var consumer := p.topics[topic];
            var due := DueWork(l, consumer, topic, now);
            && (forall id | id in Received(l, consumer, topic) :: l.inbox[Receipt(consumer.value, id)] <= g.latestReceipt)
            && (g.retainedReceipts > 0 ==>
                  exists id | id in Received(l, consumer, topic) :: l.inbox[Receipt(consumer.value, id)] == g.latestReceipt)
            && (forall id | id in due :: Age(l.outbox[id], now) <= g.oldestAge)
            && (due != {} ==> exists id | id in due :: Age(l.outbox[id], now) == g.oldestAge)
            && (due == {} ==> g.oldestAge == 0) && g.oldestAge >= 0
  {
    var consumer := p.topics[topic];
    var received, due := Received(l, consumer, topic), DueWork(l, consumer, topic, now);
    var times, ages := ReceiptTimes(l, consumer, topic), Ages(l, due, now);
    forall id | id in received
      ensures l.inbox[Receipt(consumer.value, id)] in times
    {
    }
    forall id | id in due
      ensures Age(l.outbox[id], now) in ages
    {
    }
    if due == {} {
      assert ages == {};
    }
  }

  /** Not complete for its policy: no receipt from the consumer, or a hint not published. */
  predicate Unfinished(l: Ledger, consumer: Option<string>, topic: string, id: Id) {
    && id in l.outbox && l.outbox[id].intent.topic == topic
    && match consumer
       case None => l.outbox[id].status != Published
       case Some(name) => Receipt(name, id) !in l.inbox
  }

  function UnfinishedIds(l: Ledger, consumer: Option<string>, topic: string): set<Id> {
    set id | id in l.outbox.Keys && Unfinished(l, consumer, topic, id)
  }

  function ScheduledIds(l: Ledger, consumer: Option<string>, topic: string, now: int): set<Id> {
    set id | id in UnfinishedIds(l, consumer, topic) && !ScheduleCame(l.outbox[id], now)
  }

  function DueIds(l: Ledger, consumer: Option<string>, topic: string, now: int): set<Id> {
    set id | id in UnfinishedIds(l, consumer, topic) && ScheduleCame(l.outbox[id], now)
  }

  function BusyIds(l: Ledger, consumer: Option<string>, topic: string, now: int): set<Id> {
    set id | id in UnfinishedIds(l, consumer, topic) && Busy(l, now, id)
  }

  function AbandonedIds(l: Ledger, consumer: Option<string>, topic: string, now: int): set<Id> {
    set id | id in UnfinishedIds(l, consumer, topic) && l.outbox[id].status == Delivering && Free(l.outbox[id], now)
  }

  function AwaitedIds(l: Ledger, consumer: Option<string>, topic: string): set<Id> {
    set id | id in UnfinishedIds(l, consumer, topic) && l.outbox[id].status == Published && consumer != None
  }

  function BuriedIds(l: Ledger, topic: string): set<Id> {
    set id | id in l.outbox.Keys && l.outbox[id].intent.topic == topic && OpenLetter(l, id)
  }

  lemma UnfinishedIsIncomplete(l: Ledger, consumer: Option<string>, topic: string)
    ensures Incomplete(l, consumer, topic) == UnfinishedIds(l, consumer, topic)
  {
  }

  lemma WorkSets(l: Ledger, consumer: Option<string>, topic: string, now: int)
    ensures (set id | id in Incomplete(l, consumer, topic) && Executing(l, now, id)) == BusyIds(l, consumer, topic, now)
    ensures (set id | id in Incomplete(l, consumer, topic) && l.outbox[id].status.Delivering? && Lapsed(l.outbox[id], now))
            == AbandonedIds(l, consumer, topic, now)
  {
    UnfinishedIsIncomplete(l, consumer, topic);
  }

  lemma AwaitedSet(l: Ledger, consumer: Option<string>, topic: string)
    ensures Awaiting(l, consumer, topic) == AwaitedIds(l, consumer, topic)
  {
    UnfinishedIsIncomplete(l, consumer, topic);
  }

  lemma ScheduleSets(l: Ledger, consumer: Option<string>, topic: string, now: int)
    ensures (set id | id in Incomplete(l, consumer, topic) && !Due(l.outbox[id].intent, now)) == ScheduledIds(l, consumer, topic, now)
    ensures |UnfinishedIds(l, consumer, topic)| == |ScheduledIds(l, consumer, topic, now)| + |DueIds(l, consumer, topic, now)|
  {
    UnfinishedIsIncomplete(l, consumer, topic);
    Partition(UnfinishedIds(l, consumer, topic), ScheduledIds(l, consumer, topic, now), DueIds(l, consumer, topic, now));
  }

  /** The remaining gauges in the tables' own terms; every incomplete message is either
      scheduled for later or due. */
  lemma GaugesCount(l: Ledger, name: string, p: Policy, topic: string, now: int)
    requires topic in p.topics
    ensures var g := Observe(l, name, p, topic, now);
            var consumer := p.topics[topic];
            && g.incomplete == |UnfinishedIds(l, consumer, topic)|
            && g.scheduled == |ScheduledIds(l, consumer, topic, now)|
            && g.incomplete == g.scheduled + |DueIds(l, consumer, topic, now)|
            && g.activeExecutions == |BusyIds(l, consumer, topic, now)|
            && g.expiredLeases == |AbandonedIds(l, consumer, topic, now)|
            && g.awaitingReceipt == |AwaitedIds(l, consumer, topic)|
            && g.deadLetters == |BuriedIds(l, topic)|
  {
    UnfinishedIsIncomplete(l, p.topics[topic], topic);
    WorkSets(l, p.topics[topic], topic, now);
    AwaitedSet(l, p.topics[topic], topic);
    ScheduleSets(l, p.topics[topic], topic, now);
    assert (set id | id in TopicIds(l, topic) && IsDead(l, id)) == BuriedIds(l, topic);
  }

  /** Policies are accepted exactly if there are at most 16 of them, every name and topic has
      the topic alphabet, no topic is in two, and at most 128 topics are in any. */
  lemma ValidPoliciesMeans(policies: map<string, Policy>)
    ensures ValidPolicies(policies) <==>
            && |policies| <= 16
            && (forall n | n in policies :: TopicPattern(n))
            && (forall n, t | n in policies && t in policies[n].topics :: TopicPattern(t))
            && (forall a, b, t | a in policies && b in policies && t in policies[a].topics && t in policies[b].topics :: a == b)
            && |set n, t | n in policies && t in policies[n].topics :: t| <= 128
  {
    forall s: string
      ensures IsName(s) <==> TopicPattern(s)
    {
      TopicMeans(s);
    }
    assert AllTopics(policies) == set n, t | n in policies && t in policies[n].topics :: t;
  }

  // ----- The snapshot -----

  function MessagesOf(topics: map<string, Gauges>): map<string, nat> {
    map t | t in topics :: topics[t].messages
  }

  function CandidatesOf(topics: map<string, Gauges>, p: Policy): map<string, nat> {
    map t | t in topics && t in p.topics :: topics[t].reconcileCandidates
  }

  function PublishableOf(topics: map<string, Gauges>, p: Policy): map<string, nat> {
    map t | t in topics && t in p.topics :: topics[t].publishable
  }

  ghost function Total(gauges: map<string, nat>): nat {
    Sum(gauges, gauges.Keys)
  }

  /** The gauges of one policy's topics add up to what its runtime would do: the candidates to
      the rows its reconcile requeues, which is the number it returns, and those it buries for
      want of an acknowledgement; the publishable to the rows claim_delivery may pick, less
      the complete and the executing. */
  ghost predicate AgreesWithRuntime(l: Ledger, p: Policy, now: int, topics: map<string, Gauges>) {
    && Total(CandidatesOf(topics, p)) == ReconcileCount(l, p, now, {}) + |BuriedByTopic(l, p, now)|
    && Total(PublishableOf(topics, p)) == |ReadySet(l, p, now)|
  }

  lemma CandidatesAgree(l: Ledger, name: string, p: Policy, now: int, topics: map<string, Gauges>)
    requires Covers(l, name, p, now, topics)
    ensures Total(CandidatesOf(topics, p)) == ReconcileCount(l, p, now, {}) + |BuriedByTopic(l, p, now)|
  {
    var candidates := CandidatesOf(topics, p);
    assert forall t | t in p.topics :: IsGauge(l, name, p, t, now, topics[t]);
    assert candidates.Keys == p.topics.Keys;
    CandidatesCount(l, name, p, now, candidates);
    CandidatesAddUp(l, p, now, candidates);
  }

  lemma PublishableAgree(l: Ledger, name: string, p: Policy, now: int, topics: map<string, Gauges>)
    requires Covers(l, name, p, now, topics)
    ensures Total(PublishableOf(topics, p)) == |ReadySet(l, p, now)|
  {
    var publishable := PublishableOf(topics, p);
    assert forall t | t in p.topics :: IsGauge(l, name, p, t, now, topics[t]);
    assert publishable.Keys == p.topics.Keys;
    PublishableCount(l, name, p, now, publishable);
    PublishableAddUp(l, p, now, publishable);
  }

  /** One read-only snapshot at one clock: every topic under its policy, every message in it
      exactly once, and the gauges what the runtime would do. */
  method CollectSnapshot(db: Database, policies: map<string, Policy>, now: int) returns (r: Result<Snapshot, string>)
    ensures r.Success? <==> ValidPolicies(policies)
    ensures r.Success? ==>
              r.value.topics.Keys == AllTopics(policies)
              && CoversAll(db.State(), policies, policies.Keys, now, r.value.topics)
    ensures r.Success? ==> r.value.unregistered + Total(MessagesOf(r.value.topics)) == |db.outbox|
    ensures r.Success? ==> forall n | n in policies :: AgreesWithRuntime(db.State(), policies[n], now, r.value.topics)
  {
    if !ValidPolicies(policies) {
      return Failure("invalid delivery policies");
    }
    var topics := ObservePolicies(db, policies, now);
    MessagesCount(db.State(), policies, now, topics, MessagesOf(topics));
    MessagesAddUp(db.State(), MessagesOf(topics));
    forall n | n in policies
      ensures AgreesWithRuntime(db.State(), policies[n], now, topics)
    {
      CandidatesAgree(db.State(), n, policies[n], now, topics);
      PublishableAgree(db.State(), n, policies[n], now, topics);
    }
    return Success(Snapshot(|Unregistered(db.State(), AllTopics(policies))|, topics));
  }
}
