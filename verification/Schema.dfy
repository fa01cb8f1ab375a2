/** The four tables of the delivery protocol and the name of an execution row. */
module Schema {
  import opened Wrappers
  import opened Clock

  type Id = nat  // a message uuid, ordered as PostgreSQL orders uuids
  type Uuid = nat  // the owner of a consumer lease

  const NOT_BEFORE_HEADER := "sunmoonai.not_before.v1"

  datatype Payload = Payload(document: string)

  /** A stored header: caller text, or the reserved not-before time. */
  datatype HeaderValue = Text(text: string) | Stamp(ticks: int)

  /** What the caller asked for.  No statement of the protocol updates these columns. */
  datatype Intent = Intent(topic: string, key: string, payload: Payload, headers: map<string, HeaderValue>)

  datatype Status = Pending | Delivering | Published

  /** outbox_message */
  datatype Message = Message(
    intent: Intent,
    deduplicationKey: string,
    createdAt: int,
    status: Status,
    attempts: nat,
    availableAt: Instant,
    leaseOwner: Option<string>,
    leaseExpires: Option<int>,
    publishedAt: Option<int>,
    lastError: Option<string>)

  /** Primary key of inbox_message. */
  datatype Receipt = Receipt(consumer: string, message: Id)

  /** outbox_dead_letter */
  datatype DeadLetter = DeadLetter(errorCode: string, failedAt: int, replayedAt: Option<int>)

  /** outbox_execution */
  datatype Execution = Execution(message: Id, owner: Uuid, epoch: nat, expires: Instant)

  /** `byKey` is the unique index on deduplication_key. */
  datatype Ledger = Ledger(
    outbox: map<Id, Message>,
    byKey: map<string, Id>,
    inbox: map<Receipt, int>,
    dead: map<Id, DeadLetter>,
    executions: map<string, Execution>)

  const EMPTY := Ledger(map[], map[], map[], map[], map[])

  /** The time a message may first be delivered or consumed.  A header that is not a time
      makes the source's cast fail; it is never due. */
  predicate Due(intent: Intent, now: int) {
    NOT_BEFORE_HEADER in intent.headers ==>
      intent.headers[NOT_BEFORE_HEADER].Stamp? && intent.headers[NOT_BEFORE_HEADER].ticks <= now
  }

  predicate IsDead(l: Ledger, id: Id) {
    id in l.dead && l.dead[id].replayedAt.None?
  }

  // ----- The serialization domain -----

  predicate NameStart(c: char) {
    'a' <= c <= 'z' || '0' <= c <= '9'
  }

  predicate NameChar(c: char) {
    NameStart(c) || c == '.' || c == '_' || c == '-'
  }

  /** [a-z0-9][a-z0-9._-]{0,127} */
  predicate IsName(s: string) {
    && 1 <= |s| <= 128
    && NameStart(s[0])
    && forall i | 1 <= i < |s| :: NameChar(s[i])
  }

  function ResourceKey(topic: string, key: string): string {
    topic + ":" + key
  }

  /** Contention on an execution row is exactly equality of topic and aggregate key, for
      arbitrary keys (which may contain colons): the topic alphabet has no colon. */
  lemma ResourceKeyInjective(t1: string, k1: string, t2: string, k2: string)
    requires IsName(t1) && IsName(t2)
    ensures ResourceKey(t1, k1) == ResourceKey(t2, k2) <==> t1 == t2 && k1 == k2
  {
    var r1, r2 := ResourceKey(t1, k1), ResourceKey(t2, k2);
    if r1 == r2 {
      assert r1[|t1|] == ':' && r2[|t2|] == ':';
      assert |t1| == |t2|;
      assert t1 == r1[..|t1|] && t2 == r2[..|t2|];
      assert k1 == r1[|t1| + 1..] && k2 == r2[|t2| + 1..];
    }
  }

  /** With a colon allowed in topics the key would not separate two domains. */
  lemma ColonTopicsWouldCollide()
    ensures ResourceKey("a:b", "c") == ResourceKey("a", "b:c")
    ensures !IsName("a:b")
  {
    assert "a:b" + ":" + "c" == "a" + ":" + "b:c";
    assert !NameChar("a:b"[1]);
  }
}
