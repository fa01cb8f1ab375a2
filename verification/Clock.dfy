/** Database time.  A clock reading is an integer number of microseconds and may be any
    integer at any step: nothing here says that a later step reads a later time. */
module Clock {
  const SECOND: int := 1_000_000

  /** A stored deadline: PostgreSQL's '-infinity' or a finite timestamp. */
  datatype Instant = NegInf | At(ticks: int)

  /** `deadline <= now` */
  predicate Reached(deadline: Instant, now: int) {
    deadline.NegInf? || deadline.ticks <= now
  }

  predicate NotAfter(a: Instant, b: Instant) {
    a.NegInf? || (b.At? && a.ticks <= b.ticks)
  }

  function Later(a: Instant, b: Instant): (r: Instant)
    ensures NotAfter(a, r) && NotAfter(b, r)
    ensures r == a || r == b
  {
    if NotAfter(a, b) then b else a
  }
}
