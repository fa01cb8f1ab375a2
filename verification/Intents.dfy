/** Message intents: the validated event, the reserved schedule header, and enqueue. */
module Intents {
  import opened Wrappers
  import opened Clock
  import opened Schema

  /** The event an application commits with its own state. */
  datatype Event = Event(
    topic: string,
    key: string,
    deduplicationKey: string,
    payload: Payload,
    headers: map<string, string>,
    notBefore: Option<int>)

  datatype EnqueueError = InvalidEvent | KeyReused | IdTaken

  predicate SingleLine(s: string) {
    forall i | 0 <= i < |s| :: s[i] != '\n' && s[i] != '\r'
  }

  predicate ValidHeaders(headers: map<string, string>) {
    && |headers| <= 32
    && forall k | k in headers ::
         1 <= |k| <= 128 && |headers[k]| <= 2048 && SingleLine(k) && SingleLine(headers[k])
  }

  predicate ValidEvent(e: Event) {
    && IsName(e.topic)
    && 1 <= |e.key| <= 512
    && 1 <= |e.deduplicationKey| <= 512
    && ValidHeaders(e.headers)
    && NOT_BEFORE_HEADER !in e.headers
    && |TransportHeaders(e)| <= 32
  }

  /** The schedule becomes part of the immutable intent. */
  function TransportHeaders(e: Event): map<string, HeaderValue> {
    var texts := map k | k in e.headers :: Text(e.headers[k]);
    if e.notBefore.Some? then texts[NOT_BEFORE_HEADER := Stamp(e.notBefore.value)] else texts
  }

  function IntentOf(e: Event): Intent {
    Intent(e.topic, e.key, e.payload, TransportHeaders(e))
  }

  function NewMessage(e: Event, now: int): Message {
    Message(IntentOf(e), e.deduplicationKey, now, Pending, 0,
            if e.notBefore.Some? then At(e.notBefore.value) else NegInf,
            None, None, None, None)
  }

  /** One INSERT ... ON CONFLICT (deduplication_key): a new row, the id of the equal row
      already there, or an error that changes nothing. */
  function Enqueue(l: Ledger, e: Event, newId: Id, now: int): Result<(Ledger, Id), EnqueueError> {
    if !ValidEvent(e) then
      Failure(InvalidEvent)
    else if e.deduplicationKey in l.byKey then
      var id := l.byKey[e.deduplicationKey];
      if id in l.outbox && l.outbox[id].intent == IntentOf(e) then Success((l, id)) else Failure(KeyReused)
    else if newId in l.outbox then
      Failure(IdTaken)
    else
      Success((Insert(l, newId, NewMessage(e, now)), newId))
  }

  function Insert(l: Ledger, id: Id, m: Message): Ledger {
    l.(outbox := l.outbox[id := m], byKey := l.byKey[m.deduplicationKey := id])
  }

  /** Two valid events are the same stored intent exactly when topic, key, payload, caller
      headers and not-before all agree: the reserved header can neither be forged nor lost. */
  lemma IntentFaithful(a: Event, b: Event)
    requires ValidEvent(a) && ValidEvent(b)
    ensures IntentOf(a) == IntentOf(b) <==>
            a.topic == b.topic && a.key == b.key && a.payload == b.payload
            && a.headers == b.headers && a.notBefore == b.notBefore
  {
    var ha, hb := TransportHeaders(a), TransportHeaders(b);
    if ha == hb {
      assert (NOT_BEFORE_HEADER in ha) == a.notBefore.Some?;
      assert (NOT_BEFORE_HEADER in hb) == b.notBefore.Some?;
      assert a.notBefore == b.notBefore;
      assert forall k :: k in a.headers <==> k in ha && k != NOT_BEFORE_HEADER;
      assert forall k :: k in b.headers <==> k in hb && k != NOT_BEFORE_HEADER;
      forall k | k in a.headers
        ensures k in b.headers && a.headers[k] == b.headers[k]
      {
        assert ha[k] == Text(a.headers[k]) && hb[k] == Text(b.headers[k]);
      }
      assert a.headers.Keys == b.headers.Keys;
      assert a.headers == b.headers;
    }
  }

  /** A message is due exactly when its event has no not-before or that time has come. */
  lemma DueIsTheEventsSchedule(e: Event, now: int)
    requires ValidEvent(e)
    ensures Due(IntentOf(e), now) <==> e.notBefore.None? || e.notBefore.value <= now
  {
    assert (NOT_BEFORE_HEADER in TransportHeaders(e)) == e.notBefore.Some?;
  }

  // ----- What no step may undo -----

  /** Rows keep their intent, deduplication key and creation time; receipts stay; an
      execution row stays, and its epoch only grows. */
  ghost predicate Extends(l: Ledger, l': Ledger) {
    && (forall id | id in l.outbox ::
          id in l'.outbox
          && l'.outbox[id].intent == l.outbox[id].intent
          && l'.outbox[id].deduplicationKey == l.outbox[id].deduplicationKey
          && l'.outbox[id].createdAt == l.outbox[id].createdAt)
    && (forall k | k in l.byKey :: k in l'.byKey && l'.byKey[k] == l.byKey[k])
    && (forall r | r in l.inbox :: r in l'.inbox && l'.inbox[r] == l.inbox[r])
    && (forall k | k in l.executions :: k in l'.executions && Succeeds(l.executions[k], l'.executions[k]))
  }

  /** The later row has a larger epoch, or is the same lease and, once released, still
      released. */
  predicate Succeeds(x: Execution, y: Execution) {
    || x.epoch < y.epoch
    || (x.epoch == y.epoch && x.message == y.message && x.owner == y.owner
        && (x.expires.NegInf? ==> y.expires.NegInf?))
  }

  lemma ExtendsTransitive(a: Ledger, b: Ledger, c: Ledger)
    requires Extends(a, b) && Extends(b, c)
    ensures Extends(a, c)
  {
  }

  /** The unique index is exact and every row came from a valid event. */
  ghost predicate Indexed(l: Ledger) {
    && (forall k | k in l.byKey :: l.byKey[k] in l.outbox && l.outbox[l.byKey[k]].deduplicationKey == k)
    && (forall id | id in l.outbox ::
          l.outbox[id].deduplicationKey in l.byKey && l.byKey[l.outbox[id].deduplicationKey] == id)
    && (forall id | id in l.outbox :: IsName(l.outbox[id].intent.topic))
  }

  lemma InsertKeeps(l: Ledger, id: Id, m: Message)
    requires Indexed(l) && id !in l.outbox && m.deduplicationKey !in l.byKey && IsName(m.intent.topic)
    ensures Indexed(Insert(l, id, m)) && Extends(l, Insert(l, id, m))
  {
    var l' := Insert(l, id, m);
    forall k | k in l'.byKey
      ensures l'.byKey[k] in l'.outbox && l'.outbox[l'.byKey[k]].deduplicationKey == k
    {
      if k != m.deduplicationKey {
        assert l.byKey[k] != id;
      }
    }
    forall i | i in l'.outbox
      ensures l'.outbox[i].deduplicationKey in l'.byKey && l'.byKey[l'.outbox[i].deduplicationKey] == i
      ensures IsName(l'.outbox[i].intent.topic)
    {
      if i != id {
        assert l'.outbox[i] == l.outbox[i];
      }
    }
  }

  lemma EnqueueKeeps(l: Ledger, e: Event, newId: Id, now: int)
    requires Indexed(l)
    ensures var r := Enqueue(l, e, newId, now);
            r.Success? ==> Indexed(r.value.0) && Extends(l, r.value.0)
                           && e.deduplicationKey in r.value.0.byKey
                           && r.value.0.byKey[e.deduplicationKey] == r.value.1
                           && r.value.1 in r.value.0.outbox
                           && r.value.0.outbox[r.value.1].intent == IntentOf(e)
  {
    var r := Enqueue(l, e, newId, now);
    if r.Success? && e.deduplicationKey !in l.byKey {
      InsertKeeps(l, newId, NewMessage(e, now));
    }
  }

  /** A deduplication key in use: in every later ledger a valid event with the stored intent
      gets the stored id and changes nothing at all, and any other intent is rejected. */
  lemma KeyMeansOneIntent(l: Ledger, l': Ledger, e: Event, newId: Id, now: int)
    requires Indexed(l) && Extends(l, l')
    requires ValidEvent(e) && e.deduplicationKey in l.byKey
    ensures l.outbox[l.byKey[e.deduplicationKey]].intent == IntentOf(e) ==>
              Enqueue(l', e, newId, now) == Success((l', l.byKey[e.deduplicationKey]))
    ensures l.outbox[l.byKey[e.deduplicationKey]].intent != IntentOf(e) ==>
              Enqueue(l', e, newId, now) == Failure(KeyReused)
  {
    var id := l.byKey[e.deduplicationKey];
    assert l'.byKey[e.deduplicationKey] == id;
    assert l'.outbox[id].intent == l.outbox[id].intent;
  }
}
