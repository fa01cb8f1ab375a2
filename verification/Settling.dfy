/** Every message is settled in the end: completed or dead-lettered, whatever publishers,
    consumers, operators and batch workers do in between, and whatever the clocks read. */
module Settling {
  import opened Wrappers
  import opened Schema
  import opened Intents
  import opened Ordering
  import opened Publisher
  import opened Sweeping
  import opened Protocol
  import opened Publishing
  import opened Progress
  import opened Pump

  predicate Settled(l: Ledger, p: Policy, id: Id) {
    Complete(l, p, id) || IsDead(l, id)
  }

  predicate Replays(s: Step, id: Id) {
    s.ReplayStep? && s.id == id
  }

  ghost predicate NoReplay(steps: seq<Step>, id: Id) {
    forall i | 0 <= i < |steps| :: !Replays(steps[i], id)
  }

  // ----- A settled message stays settled -----

  predicate Hint(l: Ledger, p: Policy, id: Id) {
    id in l.outbox && l.outbox[id].intent.topic in p.topics && p.topics[l.outbox[id].intent.topic].None?
  }

  /** A dead letter stays open, and a published hint published. */
  predicate Lasts(l: Ledger, l': Ledger, p: Policy, id: Id) {
    id in l.outbox ==>
      && id in l'.outbox
      && (IsDead(l, id) ==> IsDead(l', id))
      && (Hint(l, p, id) && l.outbox[id].status.Published? ==> l'.outbox[id].status.Published?)
  }

  lemma LastsSettled(l: Ledger, l': Ledger, p: Policy, id: Id)
    requires Lasts(l, l', p, id) && Extends(l, l') && id in l.outbox && Settled(l, p, id)
    ensures Settled(l', p, id)
  {
    assert l'.outbox[id].intent == l.outbox[id].intent;
  }

  lemma ClaimLasts(w: World, p: Policy, owner: string, now: int, locked: set<Id>, id: Id)
    ensures Lasts(w.ledger, ClaimWorld(w, p, owner, now, locked).ledger, p, id)
  {
  }

  lemma FinishLasts(l: Ledger, p: Policy, t: Ticket, error: Option<string>, now: int, id: Id)
    ensures var r := Finish(l, p, t, error, now); r.Success? ==> Lasts(l, r.value, p, id)
  {
  }

  lemma ReconcileLasts(l: Ledger, p: Policy, now: int, locked: set<Id>, id: Id)
    ensures Lasts(l, Publisher.Reconcile(l, p, now, locked), p, id)
  {
  }

  lemma ReplayLasts(w: World, p: Policy, other: Id, now: int, id: Id)
    requires other != id
    ensures Lasts(w.ledger, ReplayWorld(w, p, other, now).ledger, p, id)
  {
  }

  lemma PublisherLasts(w: World, p: Policy, s: Step, id: Id)
    requires IsPublisher(s) && !Replays(s, id)
    ensures Lasts(w.ledger, PublisherWorld(w, p, s).ledger, p, id)
  {
    match s
    case ClaimStep(owner, now, locked) => ClaimLasts(w, p, owner, now, locked, id);
    case FinishStep(owner, error, now) =>
      if owner in w.tickets {
        FinishLasts(w.ledger, p, w.tickets[owner], error, now, id);
      }
    case ReconcileStep(now, locked) => ReconcileLasts(w.ledger, p, now, locked, id);
    case ReplayStep(other, now) => ReplayLasts(w, p, other, now, id);
  }

  lemma BatchLasts(w: World, p: Policy, s: Step, id: Id)
    requires IsBatch(s)
    ensures Lasts(w.ledger, BatchWorld(w, s).ledger, p, id)
  {
    if s.BatchClaimStep? {
      TakeIsSorted(w.ledger.outbox, BatchSet(w.ledger, s.started, s.now, s.locked), s.limit);
    }
  }

  lemma StepLasts(w: World, p: Policy, s: Step, id: Id)
    requires !Replays(s, id)
    ensures Lasts(w.ledger, Apply(w, p, s).ledger, p, id)
  {
    if s.EnqueueStep? {
      EnqueueInserts(w, s.event, s.newId, s.now);
    } else if IsPublisher(s) {
      PublisherLasts(w, p, s, id);
    } else if IsBatch(s) {
      BatchLasts(w, p, s, id);
    } else {
      ConsumerMoves(w, p, s);
    }
  }

  /** Batch workers and consumers included: only a replay of the message unsettles it. */
  lemma StepKeepsSettled(w: World, p: Policy, s: Step, id: Id)
    requires Indexed(w.ledger) && id in w.ledger.outbox && !Replays(s, id) && Settled(w.ledger, p, id)
    ensures Settled(Apply(w, p, s).ledger, p, id)
  {
    StepExtends(w, p, s);
    StepLasts(w, p, s, id);
    LastsSettled(w.ledger, Apply(w, p, s).ledger, p, id);
  }

  // ----- Attempts count the claims -----

  /** How often publishers claim the message in the run. */
  function ClaimsOf(w: World, p: Policy, steps: seq<Step>, id: Id): nat {
    if steps == [] then 0 else
      var before := steps[..|steps| - 1];
      ClaimsOf(w, p, before, id) + (if ClaimsIt(Run(w, p, before), p, steps[|steps| - 1], id) then 1 else 0)
  }

  /** The attempt count grows by a claim of the message, and otherwise only by a batch claim. */
  predicate Counts(w: World, w': World, p: Policy, s: Step, id: Id) {
    id in w.ledger.outbox ==>
      && id in w'.ledger.outbox
      && var grown := w.ledger.outbox[id].attempts + (if ClaimsIt(w, p, s, id) then 1 else 0);
         if IsBatch(s) then w'.ledger.outbox[id].attempts >= grown else w'.ledger.outbox[id].attempts == grown
  }

  lemma PublisherCounts(w: World, p: Policy, s: Step, id: Id)
    requires IsPublisher(s) && !Replays(s, id)
    ensures Counts(w, PublisherWorld(w, p, s), p, s, id)
  {
    if s.FinishStep? && s.owner in w.tickets {
      FinishEndsOnly(w.ledger, p, w.tickets[s.owner], s.error, s.now);
    }
  }

  lemma BatchCounts(w: World, p: Policy, s: Step, id: Id)
    requires IsBatch(s)
    ensures Counts(w, BatchWorld(w, s), p, s, id)
  {
  }

  lemma StepCounts(w: World, p: Policy, s: Step, id: Id)
    requires !Replays(s, id)
    ensures Counts(w, Apply(w, p, s), p, s, id)
  {
    if s.EnqueueStep? {
      EnqueueInserts(w, s.event, s.newId, s.now);
    } else if IsPublisher(s) {
      PublisherCounts(w, p, s, id);
    } else if IsBatch(s) {
      BatchCounts(w, p, s, id);
    } else {
      ConsumerMoves(w, p, s);
    }
  }

  lemma {:induction false} RunCounts(w: World, p: Policy, steps: seq<Step>, id: Id)
    requires id in w.ledger.outbox && NoReplay(steps, id)
    ensures var w' := Run(w, p, steps);
            && id in w'.ledger.outbox
            && w'.ledger.outbox[id].attempts >= w.ledger.outbox[id].attempts + ClaimsOf(w, p, steps, id)
            && (AllDurable(steps) ==>
                  w'.ledger.outbox[id].attempts == w.ledger.outbox[id].attempts + ClaimsOf(w, p, steps, id))
  {
    if steps != [] {
      var before, s := steps[..|steps| - 1], steps[|steps| - 1];
      RunCounts(w, p, before, id);
      StepCounts(Run(w, p, before), p, s, id);
    }
  }

  lemma {:induction false} RunKeepsSettled(w: World, p: Policy, steps: seq<Step>, id: Id)
    requires Indexed(w.ledger) && id in w.ledger.outbox && NoReplay(steps, id) && Settled(w.ledger, p, id)
    ensures Settled(Run(w, p, steps).ledger, p, id)
  {
    if steps != [] {
      var before, s := steps[..|steps| - 1], steps[|steps| - 1];
      RunKeepsSettled(w, p, before, id);
      RunExtends(w, p, before);
      StepKeepsSettled(Run(w, p, before), p, s, id);
    }
  }

  /** Over any run without a replay of the message: what is settled stays settled, and the
      attempt count grows by the claims of the message, on the durable path by exactly them. */
  lemma SettledOrCounted(w: World, p: Policy, steps: seq<Step>, id: Id)
    requires Indexed(w.ledger) && id in w.ledger.outbox && NoReplay(steps, id)
    ensures var w' := Run(w, p, steps);
            && id in w'.ledger.outbox && w'.ledger.outbox[id].intent == w.ledger.outbox[id].intent
            && (Settled(w.ledger, p, id) ==> Settled(w'.ledger, p, id))
            && w'.ledger.outbox[id].attempts >= w.ledger.outbox[id].attempts + ClaimsOf(w, p, steps, id)
            && (AllDurable(steps) ==>
                  w'.ledger.outbox[id].attempts == w.ledger.outbox[id].attempts + ClaimsOf(w, p, steps, id))
  {
    RunExtends(w, p, steps);
    RunCounts(w, p, steps, id);
    if Settled(w.ledger, p, id) {
      RunKeepsSettled(w, p, steps, id);
    }
  }

  // ----- Any interleaving -----

  predicate Registered(l: Ledger, p: Policy, id: Id) {
    id in l.outbox && l.outbox[id].intent.topic in p.topics
  }

  /** Attempts left. */
  function Left(l: Ledger, p: Policy, id: Id): nat
    requires id in l.outbox
  {
    if l.outbox[id].attempts < p.maxAttempts then p.maxAttempts - l.outbox[id].attempts else 0
  }

  lemma ReconcileSettles(l: Ledger, p: Policy, id: Id, now: int, locked: set<Id>)
    requires RowsShaped(l) && Registered(l, p, id) && id !in locked && Ripe(l, p, now, id)
    requires Settled(l, p, id) || l.outbox[id].attempts >= p.maxAttempts
    ensures Settled(Publisher.Reconcile(l, p, now, locked), p, id)
  {
    var l' := Publisher.Reconcile(l, p, now, locked);
    ReconcilePublisherOnly(l, p, now, locked);
    ReconcileLasts(l, p, now, locked, id);
    assert l'.outbox[id].intent == l.outbox[id].intent;
    if !Settled(l, p, id) {
      NothingIsStuck(l, p, now, locked, id);
    }
  }

  /** Once the run has claimed the message as often as it had attempts left, a reconcile that
      does not skip it, at a clock past its deadlines, finds it settled or settles it. */
  lemma EnoughClaimsSettle(w: World, p: Policy, steps: seq<Step>, id: Id, now: int, locked: set<Id>)
    requires Indexed(w.ledger) && RowsShaped(w.ledger) && Registered(w.ledger, p, id)
    requires AllCareful(steps) && NoReplay(steps, id)
    requires ClaimsOf(w, p, steps, id) >= Left(w.ledger, p, id)
    requires id in Run(w, p, steps).ledger.outbox && id !in locked && Ripe(Run(w, p, steps).ledger, p, now, id)
    ensures Settled(Publisher.Reconcile(Run(w, p, steps).ledger, p, now, locked), p, id)
  {
    SettledOrCounted(w, p, steps, id);
    RunKeepsShapes(w, p, steps);
    ReconcileSettles(Run(w, p, steps).ledger, p, id, now, locked);
  }

  // ----- Pumps, with anything in between -----

  /** Whatever the other processes do, then a pump; its reconcile skips the rows `locked`. */
  datatype Round = Round(others: seq<Step>, now: int, locked: set<Id>, turns: seq<Turn>)

  function RoundSteps(w: World, p: Policy, r: Round): seq<Step> {
    r.others + PumpSteps(Run(w, p, r.others).ledger, p, r.now, r.locked, r.turns)
  }

  /** The rounds as one run of the protocol. */
  function RoundsSteps(w: World, p: Policy, rounds: seq<Round>): seq<Step>
    decreases |rounds|
  {
    if rounds == [] then [] else
      var first := RoundSteps(w, p, rounds[0]);
      first + RoundsSteps(Run(w, p, first), p, rounds[1..])
  }

  /** What a pump at this clock claims before the message. */
  function Earlier(l: Ledger, p: Policy, now: int, held: set<Id>, id: Id): set<Id>
    requires id in l.outbox
  {
    set x | x in ClaimableSet(l, p, now, held) && Before(l.outbox, x, id)
  }

  ghost predicate Outcomes(turns: seq<Turn>) {
    forall i | 0 <= i < |turns| :: turns[i].failure != Some("")
  }

  /** The clock of the loop stands still at `clock`, and the limit reaches beyond the messages
      that come before this one. */
  ghost predicate ReachesAt(l: Ledger, p: Policy, now: int, turns: seq<Turn>, id: Id, clock: int, held: set<Id>)
    requires id in l.outbox
  {
    AtClock(turns, clock, held) && now <= clock && id !in held && |Earlier(l, p, clock, held, id)| < |turns|
  }

  /** Clocks and locks may change from turn to turn, but the loop ends before its limit: it
      finds nothing more to claim. */
  ghost predicate Drains(l: Ledger, p: Policy, now: int, turns: seq<Turn>, id: Id) {
    && (forall i | 0 <= i < |turns| :: now <= turns[i].claimedAt && id !in turns[i].locked)
    && |ClaimedFrom(l, p, turns, 0)| < |turns|
  }

  ghost predicate Reaches(l: Ledger, p: Policy, now: int, turns: seq<Turn>, id: Id)
    requires id in l.outbox
  {
    Drains(l, p, now, turns, id) || exists clock, held :: ReachesAt(l, p, now, turns, id, clock, held)
  }

  /** The others, batch workers included, neither replay the message nor finish with the empty
      string; unless it is settled by then, the pump starts past its deadlines, its row is
      free, and the limit reaches it. */
  ghost predicate Fair(w: World, p: Policy, id: Id, r: Round) {
    && AllCareful(r.others) && NoReplay(r.others, id) && Outcomes(r.turns)
    && var l := Run(w, p, r.others).ledger;
       id in l.outbox
       && (Settled(l, p, id)
           || (id !in r.locked && Ripe(l, p, r.now, id)
               && Reaches(Publisher.Reconcile(l, p, r.now, r.locked), p, r.now, r.turns, id)))
  }

  ghost predicate AllFair(w: World, p: Policy, id: Id, rounds: seq<Round>)
    decreases |rounds|
  {
    rounds == [] || (Fair(w, p, id, rounds[0]) && AllFair(Run(w, p, RoundSteps(w, p, rounds[0])), p, id, rounds[1..]))
  }

  lemma SubsetCount(a: set<Id>, b: set<Id>)
    requires a <= b
    ensures |a| <= |b|
  {
    assert b == a + (b - a);
  }

  /** A sorted take longer than what comes before a row takes the row. */
  lemma TakeReaches(o: map<Id, Message>, s: set<Id>, n: nat, ids: seq<Id>, id: Id)
    requires s <= o.Keys && IsSortedTake(o, s, n, ids) && id in s
    requires |set x | x in s && Before(o, x, id)| < n
    ensures id in ids
  {
    if id !in ids {
      DistinctCount(ids);
      SubsetCount(Ids(ids), s - {id});
      SubsetCount(Ids(ids), set x | x in s && Before(o, x, id));
    }
  }

  lemma TurnCounts(l: Ledger, p: Policy, t: Turn, id: Id)
    requires id in l.outbox
    ensures var (l', taken) := TakeTurn(l, p, t);
            id in l'.outbox
            && l'.outbox[id].attempts == l.outbox[id].attempts + (if taken == Some(id) then 1 else 0)
  {
  }

  /** A pump's claims are in the attempt counts. */
  lemma {:induction false} TurnsCount(l: Ledger, p: Policy, turns: seq<Turn>, i: nat, id: Id)
    requires i <= |turns| && id in l.outbox
    ensures var (l', ids) := Turns(l, p, turns, i);
            id in l'.outbox
            && l'.outbox[id].attempts >= l.outbox[id].attempts + (if id in ids then 1 else 0)
    decreases |turns| - i
  {
    if i < |turns| {
      TurnCounts(l, p, turns[i], id);
      if TakeTurn(l, p, turns[i]).1.Some? {
        TurnsCount(TakeTurn(l, p, turns[i]).0, p, turns, i + 1, id);
      }
    }
  }

  lemma {:induction false} TurnStepsAreQuiet(l: Ledger, p: Policy, turns: seq<Turn>, i: nat, id: Id)
    requires i <= |turns| && Outcomes(turns)
    ensures AllCareful(TurnSteps(l, p, turns, i)) && NoReplay(TurnSteps(l, p, turns, i), id)
    decreases |turns| - i
  {
    if i < |turns| && TakeTurn(l, p, turns[i]).1.Some? {
      TurnStepsAreQuiet(TakeTurn(l, p, turns[i]).0, p, turns, i + 1, id);
    }
  }

  ghost predicate Quiet(steps: seq<Step>, id: Id) {
    AllCareful(steps) && NoReplay(steps, id)
  }

  lemma QuietTogether(a: seq<Step>, b: seq<Step>, id: Id)
    requires Quiet(a, id) && Quiet(b, id)
    ensures Quiet(a + b, id)
  {
  }

  lemma RoundIsQuiet(w: World, p: Policy, id: Id, r: Round)
    requires Fair(w, p, id, r)
    ensures Quiet(RoundSteps(w, p, r), id)
  {
    var l := Run(w, p, r.others).ledger;
    var turns := TurnSteps(Publisher.Reconcile(l, p, r.now, r.locked), p, r.turns, 0);
    TurnStepsAreQuiet(Publisher.Reconcile(l, p, r.now, r.locked), p, r.turns, 0, id);
    QuietTogether([ReconcileStep(r.now, r.locked)], turns, id);
    QuietTogether(r.others, [ReconcileStep(r.now, r.locked)] + turns, id);
  }

  lemma {:induction false} RoundsAreQuiet(w: World, p: Policy, id: Id, rounds: seq<Round>)
    requires AllFair(w, p, id, rounds)
    ensures Quiet(RoundsSteps(w, p, rounds), id)
    decreases |rounds|
  {
    if rounds != [] {
      var first := RoundSteps(w, p, rounds[0]);
      RoundIsQuiet(w, p, id, rounds[0]);
      RoundsAreQuiet(Run(w, p, first), p, id, rounds[1..]);
      QuietTogether(first, RoundsSteps(Run(w, p, first), p, rounds[1..]), id);
    }
  }

  lemma ClaimableLater(l: Ledger, p: Policy, now: int, later: int, id: Id)
    requires Claimable(l, p, now, id) && now <= later
    ensures Claimable(l, p, later, id)
  {
  }

  /** A loop that ends before its limit has claimed everything that stayed claimable. */
  lemma {:induction false} DrainTakes(l: Ledger, p: Policy, turns: seq<Turn>, i: nat, now: int, id: Id)
    requires i <= |turns| && Claimable(l, p, now, id)
    requires forall j | i <= j < |turns| :: now <= turns[j].claimedAt && id !in turns[j].locked
    requires |ClaimedFrom(l, p, turns, i)| < |turns| - i
    ensures id in ClaimedFrom(l, p, turns, i)
    decreases |turns| - i
  {
    var t := turns[i];
    ClaimableLater(l, p, now, t.claimedAt, id);
    assert id in ClaimableSet(l, p, t.claimedAt, t.locked);
    var (l', taken) := TakeTurn(l, p, t);
    assert ClaimedFrom(l, p, turns, i) == [taken.value] + ClaimedFrom(l', p, turns, i + 1);
    if taken.value != id {
      TurnFrames(l, p, t);
      DrainTakes(l', p, turns, i + 1, now, id);
    }
  }

  lemma ReachTakes(l: Ledger, p: Policy, now: int, turns: seq<Turn>, id: Id)
    requires ValidPolicy(p) && Claimable(l, p, now, id) && Reaches(l, p, now, turns, id)
    ensures id in ClaimedFrom(l, p, turns, 0)
  {
    if Drains(l, p, now, turns, id) {
      DrainTakes(l, p, turns, 0, now, id);
    } else {
      var clock, held :| ReachesAt(l, p, now, turns, id, clock, held);
      ClaimableLater(l, p, now, clock, id);
      TurnsAreSortedTake(l, p, turns, clock, held);
      TakeReaches(l.outbox, ClaimableSet(l, p, clock, held), |turns|, ClaimedFrom(l, p, turns, 0), id);
    }
  }

  /** The pump itself: settled at its reconcile, or claimed by one of its turns. */
  lemma PumpAdvances(l: Ledger, p: Policy, id: Id, now: int, locked: set<Id>, turns: seq<Turn>)
    requires ValidPolicy(p) && RowsShaped(l) && Registered(l, p, id) && Ripe(l, p, now, id)
    requires !Settled(l, p, id) && id !in locked
    requires Reaches(Publisher.Reconcile(l, p, now, locked), p, now, turns, id)
    ensures var l' := Publisher.Reconcile(l, p, now, locked);
            var after := Turns(l', p, turns, 0).0;
            || IsDead(l', id)
            || (l.outbox[id].attempts < p.maxAttempts
                && id in after.outbox && after.outbox[id].attempts > l.outbox[id].attempts)
  {
    var l' := Publisher.Reconcile(l, p, now, locked);
    NothingIsStuck(l, p, now, locked, id);
    if !IsDead(l', id) {
      ReachTakes(l', p, now, turns, id);
      TurnsCount(l', p, turns, 0, id);
    }
  }

  predicate Advances(l: Ledger, l': Ledger, p: Policy, id: Id) {
    || Settled(l', p, id)
    || (id in l.outbox && id in l'.outbox
        && l.outbox[id].attempts < p.maxAttempts && l'.outbox[id].attempts > l.outbox[id].attempts)
  }

  lemma PumpSplits(w: World, p: Policy, now: int, locked: set<Id>, turns: seq<Turn>)
    ensures var swept := Apply(w, p, ReconcileStep(now, locked));
            && swept.ledger == Publisher.Reconcile(w.ledger, p, now, locked)
            && Run(w, p, PumpSteps(w.ledger, p, now, locked, turns)) == Run(swept, p, TurnSteps(swept.ledger, p, turns, 0))
  {
    var sweep := ReconcileStep(now, locked);
    RunOne(w, p, sweep);
    RunAppend(w, p, [sweep], TurnSteps(Apply(w, p, sweep).ledger, p, turns, 0));
  }

  /** If the reconcile settled the message, the turns after it keep it settled. */
  lemma SettledThroughTurns(w: World, p: Policy, id: Id, now: int, locked: set<Id>, turns: seq<Turn>)
    requires Indexed(w.ledger) && id in w.ledger.outbox && Outcomes(turns)
    requires Settled(Publisher.Reconcile(w.ledger, p, now, locked), p, id)
    ensures Settled(Run(w, p, PumpSteps(w.ledger, p, now, locked, turns)).ledger, p, id)
  {
    var swept := Apply(w, p, ReconcileStep(now, locked));
    PumpSplits(w, p, now, locked, turns);
    StepExtends(w, p, ReconcileStep(now, locked));
    TurnStepsAreQuiet(swept.ledger, p, turns, 0, id);
    SettledOrCounted(swept, p, TurnSteps(swept.ledger, p, turns, 0), id);
  }

  lemma PumpRunAdvances(w: World, p: Policy, id: Id, now: int, locked: set<Id>, turns: seq<Turn>, after: World)
    requires ValidPolicy(p) && Indexed(w.ledger) && RowsShaped(w.ledger) && Registered(w.ledger, p, id)
    requires Outcomes(turns)
    requires Settled(w.ledger, p, id)
             || (id !in locked && Ripe(w.ledger, p, now, id)
                 && Reaches(Publisher.Reconcile(w.ledger, p, now, locked), p, now, turns, id))
    requires after == Run(w, p, PumpSteps(w.ledger, p, now, locked, turns))
    ensures Advances(w.ledger, after.ledger, p, id)
  {
    if Settled(w.ledger, p, id) {
      StepKeepsSettled(w, p, ReconcileStep(now, locked), id);
      SettledThroughTurns(w, p, id, now, locked, turns);
    } else {
      PumpAdvances(w.ledger, p, id, now, locked, turns);
      if IsDead(Publisher.Reconcile(w.ledger, p, now, locked), id) {
        SettledThroughTurns(w, p, id, now, locked, turns);
      } else {
        PumpIsARun(w, p, now, locked, turns);
      }
    }
  }

  ghost predicate Ready(w: World, p: Policy, id: Id) {
    Indexed(w.ledger) && RowsShaped(w.ledger) && Registered(w.ledger, p, id)
  }

  /** What a quiet run leaves: ready again, attempts not fewer, settled if it was. */
  lemma QuietRunKeeps(w: World, p: Policy, steps: seq<Step>, id: Id, w': World)
    requires Ready(w, p, id) && AllCareful(steps) && NoReplay(steps, id) && w' == Run(w, p, steps)
    ensures Ready(w', p, id) && (Settled(w.ledger, p, id) ==> Settled(w'.ledger, p, id))
    ensures w'.ledger.outbox[id].attempts >= w.ledger.outbox[id].attempts
  {
    SettledOrCounted(w, p, steps, id);
    RunExtends(w, p, steps);
    RunKeepsShapes(w, p, steps);
  }

  lemma RoundSplits(w: World, p: Policy, r: Round)
    ensures var mid := Run(w, p, r.others);
            Run(w, p, RoundSteps(w, p, r)) == Run(mid, p, PumpSteps(mid.ledger, p, r.now, r.locked, r.turns))
  {
    RunAppend(w, p, r.others, PumpSteps(Run(w, p, r.others).ledger, p, r.now, r.locked, r.turns));
  }

  lemma AdvancesLeaveLess(l: Ledger, mid: Ledger, l': Ledger, p: Policy, id: Id)
    requires id in l.outbox && id in mid.outbox && id in l'.outbox && Advances(mid, l', p, id)
    requires mid.outbox[id].attempts >= l.outbox[id].attempts
    ensures Settled(l', p, id) || Left(l', p, id) < Left(l, p, id)
  {
  }

  /** A round settles the message or uses up an attempt. */
  lemma RoundAdvances(w: World, p: Policy, id: Id, r: Round, w': World)
    requires ValidPolicy(p) && Ready(w, p, id) && Fair(w, p, id, r) && w' == Run(w, p, RoundSteps(w, p, r))
    ensures Ready(w', p, id) && (Settled(w'.ledger, p, id) || Left(w'.ledger, p, id) < Left(w.ledger, p, id))
  {
    var mid := Run(w, p, r.others);
    QuietRunKeeps(w, p, r.others, id, mid);
    RoundIsQuiet(w, p, id, r);
    QuietRunKeeps(w, p, RoundSteps(w, p, r), id, w');
    RoundSplits(w, p, r);
    PumpRunAdvances(mid, p, id, r.now, r.locked, r.turns, w');
    AdvancesLeaveLess(w.ledger, mid.ledger, w'.ledger, p, id);
  }

  /** From any state of the durable path: whatever publishers, consumers and operators do
      between the pumps, and whatever publishes fail, are lost or die, more fair rounds than
      the message has attempts left end with it completed or dead-lettered. */
  lemma {:induction false} PumpsSettle(w: World, p: Policy, id: Id, rounds: seq<Round>)
    requires ValidPolicy(p) && Ready(w, p, id)
    requires AllFair(w, p, id, rounds) && |rounds| > Left(w.ledger, p, id)
    ensures Settled(Run(w, p, RoundsSteps(w, p, rounds)).ledger, p, id)
    decreases |rounds|
  {
    var first := RoundSteps(w, p, rounds[0]);
    var w' := Run(w, p, first);
    var rest := RoundsSteps(w', p, rounds[1..]);
    RoundAdvances(w, p, id, rounds[0], w');
    RunAppend(w, p, first, rest);
    if Settled(w'.ledger, p, id) {
      RoundsAreQuiet(w', p, id, rounds[1..]);
      SettledOrCounted(w', p, rest, id);
    } else {
      PumpsSettle(w', p, id, rounds[1..]);
    }
  }

  /** The states PumpsSettle starts from are all those the durable path reaches: whatever has
      happened so far, fair rounds from there on settle every registered message. */
  lemma EveryMessageSettles(p: Policy, before: seq<Step>, id: Id, rounds: seq<Round>)
    requires ValidPolicy(p) && AllCareful(before) && Registered(Run(START, p, before).ledger, p, id)
    requires AllFair(Run(START, p, before), p, id, rounds)
    requires |rounds| > Left(Run(START, p, before).ledger, p, id)
    ensures Settled(Run(START, p, before + RoundsSteps(Run(START, p, before), p, rounds)).ledger, p, id)
  {
    var w := Run(START, p, before);
    RunKeepsShapes(START, p, before);
    RunExtends(START, p, before);
    PumpsSettle(w, p, id, rounds);
    RunAppend(START, p, before, RoundsSteps(w, p, rounds));
  }

  // ----- In bounded time -----

  /** A round of the durable path whose pump starts later than every reading so far by more
      than the row's status makes it wait, once the schedule has come. */
  ghost predicate Timely(w: World, p: Policy, id: Id, r: Round) {
    && AllDurable(r.others) && NoReplay(r.others, id) && Outcomes(r.turns)
    && var w' := Run(w, p, r.others);
       id in w'.ledger.outbox
       && (Settled(w'.ledger, p, id)
           || (id !in r.locked && Due(w'.ledger.outbox[id].intent, r.now) && Beyond(r.now, w'.high, Patience(w'.ledger.outbox[id], p))
               && Reaches(Publisher.Reconcile(w'.ledger, p, r.now, r.locked), p, r.now, r.turns, id)))
  }

  ghost predicate AllTimely(w: World, p: Policy, id: Id, rounds: seq<Round>)
    decreases |rounds|
  {
    rounds == [] || (Timely(w, p, id, rounds[0]) && AllTimely(Run(w, p, RoundSteps(w, p, rounds[0])), p, id, rounds[1..]))
  }

  lemma TimelyIsFair(w: World, p: Policy, id: Id, r: Round)
    requires AllNear(w, p) && Timely(w, p, id, r)
    ensures Fair(w, p, id, r)
  {
    var w' := Run(w, p, r.others);
    RunStaysNear(w, p, r.others);
    if !Settled(w'.ledger, p, id) {
      RipeBeyondPatience(w'.ledger, p, w'.high, r.now, id);
    }
  }

  lemma {:induction false} TurnStepsAreDurable(l: Ledger, p: Policy, turns: seq<Turn>, i: nat)
    requires i <= |turns| && Outcomes(turns)
    ensures AllDurable(TurnSteps(l, p, turns, i))
    decreases |turns| - i
  {
    if i < |turns| && TakeTurn(l, p, turns[i]).1.Some? {
      TurnStepsAreDurable(TakeTurn(l, p, turns[i]).0, p, turns, i + 1);
    }
  }

  lemma TimelyStaysNear(w: World, p: Policy, id: Id, r: Round)
    requires AllNear(w, p) && Timely(w, p, id, r)
    ensures AllNear(Run(w, p, RoundSteps(w, p, r)), p)
  {
    TurnStepsAreDurable(Publisher.Reconcile(Run(w, p, r.others).ledger, p, r.now, r.locked), p, r.turns, 0);
    RunStaysNear(w, p, RoundSteps(w, p, r));
  }

  lemma {:induction false} TimelyRoundsAreFair(w: World, p: Policy, id: Id, rounds: seq<Round>)
    requires AllNear(w, p) && AllTimely(w, p, id, rounds)
    ensures AllFair(w, p, id, rounds)
    decreases |rounds|
  {
    if rounds != [] {
      TimelyIsFair(w, p, id, rounds[0]);
      TimelyStaysNear(w, p, id, rounds[0]);
      TimelyRoundsAreFair(Run(w, p, RoundSteps(w, p, rounds[0])), p, id, rounds[1..]);
    }
  }

  /** In bounded time: on the durable path, more pumps than attempts left, each starting more
      than 256 seconds (if it finds the message pending) or one lease (if it finds it in
      delivery or published) after every reading so far, settle a due message that their limit
      reaches.  Nothing else is asked of the states they find. */
  lemma TimelyPumpsSettle(p: Policy, before: seq<Step>, id: Id, rounds: seq<Round>)
    requires ValidPolicy(p) && AllDurable(before) && Registered(Run(START, p, before).ledger, p, id)
    requires AllTimely(Run(START, p, before), p, id, rounds)
    requires |rounds| > Left(Run(START, p, before).ledger, p, id)
    ensures Settled(Run(START, p, before + RoundsSteps(Run(START, p, before), p, rounds)).ledger, p, id)
  {
    RunStaysNear(START, p, before);
    TimelyRoundsAreFair(Run(START, p, before), p, id, rounds);
    EveryMessageSettles(p, before, id, rounds);
  }
}
