/** pump: one reconcile, then claim, publish and finish up to a limit. */
module Pump {
  import opened Wrappers
  import opened Clock
  import opened Schema
  import opened Ordering
  import opened Publisher
  import opened Effects
  import opened Delivery
  import opened Protocol

  /** What the surroundings decide about one iteration: the new owner, the rows others hold,
      the clocks, and whether publish raised (the exception's type name). */
  datatype Turn = Turn(owner: string, locked: set<Id>, claimedAt: int, failure: Option<string>, finishedAt: int)

  /** Claim, publish, finish: a lost lease is passed over, its later owner decides. */
  function TakeTurn(l: Ledger, p: Policy, t: Turn): (Ledger, Option<Id>) {
    match Claim(l, p, t.owner, t.claimedAt, t.locked)
    case (_, None) => (l, None)
    case (l', Some(ticket)) =>
      match Finish(l', p, ticket, t.failure, t.finishedAt)
      case Success(l'') => (l'', Some(ticket.id))
      case Failure(_) => (l', Some(ticket.id))
  }

  /** The loop from iteration i: the ledger it leaves and the messages it claims, in order. */
  function Turns(l: Ledger, p: Policy, turns: seq<Turn>, i: nat): (Ledger, seq<Id>)
    requires i <= |turns|
    decreases |turns| - i
  {
    if i == |turns| then (l, []) else
      match TakeTurn(l, p, turns[i])
      case (_, None) => (l, [])
      case (l', Some(id)) =>
        var rest := Turns(l', p, turns, i + 1);
        (rest.0, [id] + rest.1)
  }

  /** One iteration. */
  method RunTurn(delivery: DurableDelivery, turn: Turn) returns (id: Option<Id>)
    modifies delivery.db`outbox, delivery.db`dead
    ensures (delivery.db.State(), id) == TakeTurn(old(delivery.db.State()), delivery.policy, turn)
  {
    var ticket := delivery.ClaimDelivery(turn.owner, turn.claimedAt, turn.locked);
    if ticket.None? {
      return None;
    }
    var finished := delivery.FinishDelivery(ticket.value, turn.failure, turn.finishedAt);
    return Some(ticket.value.id);
  }

  /** The whole loop is what has been claimed so far and the rest. */
  predicate Remains(whole: (Ledger, seq<Id>), claimed: seq<Id>, rest: (Ledger, seq<Id>)) {
    whole.0 == rest.0 && whole.1 == claimed + rest.1
  }

  lemma NextTurn(whole: (Ledger, seq<Id>), claimed: seq<Id>, l: Ledger, p: Policy, turns: seq<Turn>, i: nat)
    requires i < |turns| && Remains(whole, claimed, Turns(l, p, turns, i))
    ensures var (l', id) := TakeTurn(l, p, turns[i]);
            if id.None? then l' == l && whole == (l, claimed)
            else Remains(whole, claimed + [id.value], Turns(l', p, turns, i + 1))
  {
    var (l', id) := TakeTurn(l, p, turns[i]);
    if id.Some? {
      var rest := Turns(l', p, turns, i + 1);
      assert claimed + ([id.value] + rest.1) == (claimed + [id.value]) + rest.1;
    } else {
      assert claimed + [] == claimed;
    }
  }

  /** `turns` has one entry for each of the at most `limit` iterations. */
  method RunTurns(delivery: DurableDelivery, turns: seq<Turn>) returns (count: nat, ghost claimed: seq<Id>)
    modifies delivery.db`outbox, delivery.db`dead
    ensures delivery.db.State() == Turns(old(delivery.db.State()), delivery.policy, turns, 0).0
    ensures claimed == Turns(old(delivery.db.State()), delivery.policy, turns, 0).1
    ensures count == |claimed|
  {
    ghost var whole := Turns(delivery.db.State(), delivery.policy, turns, 0);
    count, claimed := 0, [];
    for i := 0 to |turns|
      invariant count == |claimed| == i
      invariant Remains(whole, claimed, Turns(delivery.db.State(), delivery.policy, turns, i))
    {
      NextTurn(whole, claimed, delivery.db.State(), delivery.policy, turns, i);
      var id := RunTurn(delivery, turns[i]);
      if id.None? {
        return;
      }
      count, claimed := count + 1, claimed + [id.value];
    }
  }

  method RunPump(delivery: DurableDelivery, sweptAt: int, locked: set<Id>, turns: seq<Turn>)
    returns (count: nat, ghost claimed: seq<Id>)
    modifies delivery.db`outbox, delivery.db`dead
    ensures var l := Publisher.Reconcile(old(delivery.db.State()), delivery.policy, sweptAt, locked);
            delivery.db.State() == Turns(l, delivery.policy, turns, 0).0
            && claimed == ClaimedFrom(l, delivery.policy, turns, 0)
    ensures count == |claimed|
    ensures ValidPolicy(delivery.policy) ==>
              var l := Publisher.Reconcile(old(delivery.db.State()), delivery.policy, sweptAt, locked);
              forall now, held | AtClock(turns, now, held) ::
                IsSortedTake(l.outbox, ClaimableSet(l, delivery.policy, now, held), |turns|, claimed)
  {
    ghost var before := delivery.db.State();
    var swept := delivery.Reconcile(sweptAt, locked);
    count, claimed := RunTurns(delivery, turns);
    if ValidPolicy(delivery.policy) {
      forall now, held | AtClock(turns, now, held)
        ensures var l := Publisher.Reconcile(before, delivery.policy, sweptAt, locked);
                IsSortedTake(l.outbox, ClaimableSet(l, delivery.policy, now, held), |turns|, claimed)
      {
        PumpIsSortedTake(before, delivery.policy, sweptAt, locked, turns, now, held);
      }
    }
  }

  /** What one turn leaves of the message it claims: published at the finish, or pending with
      the exception's name, its backoff running and its letter open only if that was the last
      attempt; and if the finish comes when the lease is over, still in delivery for whoever
      takes it next. */
  lemma TurnRecordsOutcome(l: Ledger, p: Policy, t: Turn)
    requires t.failure != Some("")
    ensures var (l', id) := TakeTurn(l, p, t);
            match id
            case None => l' == l && forall x :: !Waiting(l, p, t.claimedAt, t.locked, x)
            case Some(id) =>
              && Waiting(l, p, t.claimedAt, t.locked, id) && id in l'.outbox
              && var m, m' := l.outbox[id], l'.outbox[id];
                 && m'.attempts == m.attempts + 1
                 && (if t.finishedAt >= t.claimedAt + p.leaseSeconds * 1_000_000 then
                       m'.status == Delivering && m'.leaseOwner == Some(t.owner) && l'.dead == l.dead
                     else
                       && m'.leaseOwner == None && m'.leaseExpires == None && m'.lastError == t.failure
                       && m'.availableAt == At(t.finishedAt + BackoffSeconds(m.attempts + 1) * 1_000_000)
                       && (t.failure == None ==> m'.status == Published && m'.publishedAt == Some(t.finishedAt))
                       && (t.failure != None ==> m'.status == Pending && m'.publishedAt == m.publishedAt)
                       && (OpenLetter(l', id) <==> t.failure != None && m.attempts + 1 >= p.maxAttempts))
  {
    ClaimEffect(l, p, t.owner, t.claimedAt, t.locked);
    var (mid, ticket) := Claim(l, p, t.owner, t.claimedAt, t.locked);
    if ticket.Some? {
      FinishEffect(mid, p, ticket.value, t.failure, t.finishedAt);
    }
  }

  // ----- A pump is a sorted take -----

  /** Every clock of the loop reads `now`, and others hold the rows `held` throughout. */
  predicate AtClock(turns: seq<Turn>, now: int, held: set<Id>) {
    forall i | 0 <= i < |turns| :: turns[i].claimedAt == now && turns[i].finishedAt == now && turns[i].locked == held
  }

  /** Whether publish succeeds or fails, a claimed row is not claimable again at the clock of
      the claim, and no other row changes. */
  lemma TurnTakesFirst(l: Ledger, p: Policy, t: Turn, now: int, held: set<Id>)
    requires ValidPolicy(p) && t.claimedAt == now && t.finishedAt == now && t.locked == held
    ensures var s := ClaimableSet(l, p, now, held);
            var (l', id) := TakeTurn(l, p, t);
            && (s == {} ==> id == None)
            && (s != {} ==> id == Some(Earliest(l.outbox, s)) && ClaimableSet(l', p, now, held) == s - {id.value}
                            && forall x | x in l.outbox :: x in l'.outbox && l'.outbox[x].createdAt == l.outbox[x].createdAt)
  {
    var s := ClaimableSet(l, p, now, held);
    if s != {} {
      var id := Earliest(l.outbox, s);
      var (l', _) := TakeTurn(l, p, t);
      TurnFrames(l, p, t);
      BackoffBounds(l.outbox[id].attempts + 1);
      assert !Claimable(l', p, now, id);
      forall x | x in l.outbox && x != id
        ensures Claimable(l', p, now, x) == Claimable(l, p, now, x)
      {
      }
      assert ClaimableSet(l', p, now, held) == s - {id};
    }
  }

  /** Only this row and its dead letter may change, and not its creation time. */
  ghost predicate OnlyRow(l: Ledger, l': Ledger, id: Id) {
    && l'.outbox.Keys == l.outbox.Keys
    && (forall x | x in l.outbox && x != id :: l'.outbox[x] == l.outbox[x] && IsDead(l', x) == IsDead(l, x))
    && (id in l.outbox ==> l'.outbox[id].createdAt == l.outbox[id].createdAt)
  }

  lemma FinishFrames(l: Ledger, p: Policy, t: Ticket, error: Option<string>, now: int)
    ensures var r := Finish(l, p, t, error, now);
            r.Success? ==> OnlyRow(l, r.value, t.id)
  {
    if Holds(l, t, now) {
      RowFrames(l, t.id, FinishedRow(l.outbox[t.id], t.attempts, error, now));
    }
  }

  lemma RowFrames(l: Ledger, id: Id, m: Message)
    requires id in l.outbox && m.createdAt == l.outbox[id].createdAt
    ensures OnlyRow(l, PutRow(l, id, m), id)
  {
  }

  lemma TurnFrames(l: Ledger, p: Policy, t: Turn)
    ensures var (l', id) := TakeTurn(l, p, t);
            id.Some? ==> OnlyRow(l, l', id.value)
  {
    var (mid, ticket) := Claim(l, p, t.owner, t.claimedAt, t.locked);
    if ticket.Some? {
      assert OnlyRow(l, mid, ticket.value.id);
      FinishFrames(mid, p, ticket.value, t.failure, t.finishedAt);
    }
  }

  /** What the loop claims from iteration i on. */
  function ClaimedFrom(l: Ledger, p: Policy, turns: seq<Turn>, i: nat): seq<Id>
    requires i <= |turns|
  {
    Turns(l, p, turns, i).1
  }

  /** The loop from iteration i is its first turn and the rest of the loop. */
  lemma NextTurnTakesFirst(l: Ledger, p: Policy, turns: seq<Turn>, i: nat, now: int, held: set<Id>)
    requires ValidPolicy(p) && AtClock(turns, now, held) && i < |turns|
    ensures var s := ClaimableSet(l, p, now, held);
            && (s == {} ==> ClaimedFrom(l, p, turns, i) == [])
            && (s != {} ==>
                  var e := Earliest(l.outbox, s);
                  var l' := TakeTurn(l, p, turns[i]).0;
                  && ClaimedFrom(l, p, turns, i) == [e] + ClaimedFrom(l', p, turns, i + 1)
                  && ClaimableSet(l', p, now, held) == s - {e} <= l'.outbox.Keys
                  && SameCreation(l.outbox, l'.outbox, s - {e}))
  {
    TurnTakesFirst(l, p, turns[i], now, held);
  }

  /** `s` is what is claimable before iteration i, and `ids` what the loop claims from there. */
  lemma {:induction false} TurnsTake(l: Ledger, p: Policy, turns: seq<Turn>, i: nat, now: int, held: set<Id>,
                                     s: set<Id>, ids: seq<Id>)
    requires ValidPolicy(p) && AtClock(turns, now, held) && i <= |turns|
    requires s == ClaimableSet(l, p, now, held) && ids == ClaimedFrom(l, p, turns, i)
    ensures ids == Take(l.outbox, s, |turns| - i)
    decreases |turns| - i
  {
    if i < |turns| {
      NextTurnTakesFirst(l, p, turns, i, now, held);
      if s != {} {
        var l' := TakeTurn(l, p, turns[i]).0;
        var rest := ClaimedFrom(l', p, turns, i + 1);
        TurnsTake(l', p, turns, i + 1, now, held, s - {Earliest(l.outbox, s)}, rest);
        TakeFirst(l.outbox, l'.outbox, s, |turns| - i, rest);
      }
    }
  }

  lemma TurnsAreSortedTake(l: Ledger, p: Policy, turns: seq<Turn>, now: int, held: set<Id>)
    requires ValidPolicy(p) && AtClock(turns, now, held)
    ensures IsSortedTake(l.outbox, ClaimableSet(l, p, now, held), |turns|, ClaimedFrom(l, p, turns, 0))
  {
    var s := ClaimableSet(l, p, now, held);
    TurnsTake(l, p, turns, 0, now, held, s, ClaimedFrom(l, p, turns, 0));
    TakeIsSorted(l.outbox, s, |turns|);
  }

  /** With the clock of the loop fixed, any publish outcomes, and any rows held by others
      throughout, pump claims exactly the first min(limit, n) of the n messages claimable after
      its reconcile, in (created_at, id) order, each once; RunPump returns their number. */
  lemma PumpIsSortedTake(l: Ledger, p: Policy, sweptAt: int, locked: set<Id>, turns: seq<Turn>, now: int, held: set<Id>)
    requires ValidPolicy(p) && AtClock(turns, now, held)
    ensures var swept := Publisher.Reconcile(l, p, sweptAt, locked);
            IsSortedTake(swept.outbox, ClaimableSet(swept, p, now, held), |turns|, ClaimedFrom(swept, p, turns, 0))
  {
    TurnsAreSortedTake(Publisher.Reconcile(l, p, sweptAt, locked), p, turns, now, held);
  }

  // ----- A pump is a run of the protocol -----

  function TurnSteps(l: Ledger, p: Policy, turns: seq<Turn>, i: nat): seq<Step>
    requires i <= |turns|
    decreases |turns| - i
  {
    if i == |turns| then [] else
      var t := turns[i];
      match TakeTurn(l, p, t)
      case (_, None) => [ClaimStep(t.owner, t.claimedAt, t.locked)]
      case (l', Some(_)) =>
        [ClaimStep(t.owner, t.claimedAt, t.locked), FinishStep(t.owner, t.failure, t.finishedAt)]
        + TurnSteps(l', p, turns, i + 1)
  }

  lemma TurnIsTwoSteps(w: World, p: Policy, t: Turn)
    ensures var w1 := Apply(w, p, ClaimStep(t.owner, t.claimedAt, t.locked));
            var w2 := Apply(w1, p, FinishStep(t.owner, t.failure, t.finishedAt));
            var (l, id) := TakeTurn(w.ledger, p, t);
            (id.None? ==> w1.ledger == l && l == w.ledger) && (id.Some? ==> w2.ledger == l)
  {
  }

  lemma {:induction false} TurnsAreARun(w: World, p: Policy, turns: seq<Turn>, i: nat)
    requires i <= |turns|
    ensures var w' := Run(w, p, TurnSteps(w.ledger, p, turns, i));
            w'.ledger == Turns(w.ledger, p, turns, i).0
            && w'.seen == w.seen && w'.sessions == w.sessions && w'.commits == w.commits
    decreases |turns| - i
  {
    if i < |turns| {
      var t := turns[i];
      var claim, finish := ClaimStep(t.owner, t.claimedAt, t.locked), FinishStep(t.owner, t.failure, t.finishedAt);
      TurnIsTwoSteps(w, p, t);
      RunOne(w, p, claim);
      assert SameProcesses(w, Move(w, p, claim));
      if TakeTurn(w.ledger, p, t).1.Some? {
        var w1 := Apply(w, p, claim);
        var w2 := Apply(w1, p, finish);
        RunOne(w1, p, finish);
        assert SameProcesses(w1, Move(w1, p, finish));
        RunAppend(w, p, [claim], [finish]);
        assert [claim] + [finish] == [claim, finish];
        RunAppend(w, p, [claim, finish], TurnSteps(w2.ledger, p, turns, i + 1));
        TurnsAreARun(w2, p, turns, i + 1);
      }
    }
  }

  /** The steps of a whole pump. */
  function PumpSteps(l: Ledger, p: Policy, sweptAt: int, locked: set<Id>, turns: seq<Turn>): seq<Step> {
    [ReconcileStep(sweptAt, locked)] + TurnSteps(Publisher.Reconcile(l, p, sweptAt, locked), p, turns, 0)
  }

  /** A pump, its reconcile included, is a run: it leaves the ledger RunPump leaves, and no
      process but its own is touched.  What holds of every run holds of every pump. */
  lemma PumpIsARun(w: World, p: Policy, sweptAt: int, locked: set<Id>, turns: seq<Turn>)
    ensures var w' := Run(w, p, PumpSteps(w.ledger, p, sweptAt, locked, turns));
            w'.ledger == Turns(Publisher.Reconcile(w.ledger, p, sweptAt, locked), p, turns, 0).0
            && w'.seen == w.seen && w'.sessions == w.sessions && w'.commits == w.commits
  {
    var sweep := ReconcileStep(sweptAt, locked);
    var swept := Apply(w, p, sweep);
    assert SameProcesses(w, Move(w, p, sweep));
    RunOne(w, p, sweep);
    RunAppend(w, p, [sweep], TurnSteps(swept.ledger, p, turns, 0));
    TurnsAreARun(swept, p, turns, 0);
  }
}
