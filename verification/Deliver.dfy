// One POST of one message, and what its answer makes of the delivery row
// (internal/notify/deliver.go, and attempt and fail in dispatcher.go).
module Deliver {
  import opened Core
  import opened Story

  const MINUTE := 60 * SECOND
  const MAX_RETRY_AFTER := 10 * MINUTE
  const ATTEMPTS: seq<int> := [0, 30 * SECOND, 2 * MINUTE, 8 * MINUTE]

  const TWO_63 := 0x8000_0000_0000_0000

  /** Arithmetic on a signed 64-bit integer wraps around. */
  function Wrap64(x: int): (r: int)
    ensures -TWO_63 <= r < TWO_63
    ensures -TWO_63 <= x < TWO_63 ==> r == x
  {
    (x + TWO_63) % (2 * TWO_63) - TWO_63
  }

  datatype Classified = Accepted | TryAgain | Permanent

  function Classify(status: int): Classified {
    if 200 <= status < 300 then Accepted
    else if status >= 500 || status == 429 then TryAgain
    else Permanent
  }

  /** seconds is what strconv.Atoi read, when it read a number. The product
      overflows for a far end that asks for three centuries. */
  function RetryAfter(seconds: Option<int>): int {
    if seconds.None? || seconds.value <= 0 then 0
    else
      var d := Wrap64(seconds.value * SECOND);
      if d > MAX_RETRY_AFTER then MAX_RETRY_AFTER else d
  }

  /** What one POST established. */
  datatype Result = Result(status: int, failed: bool, retry: bool, retryAt: int)

  /** How the far end, or the network, answered. */
  datatype Answer =
    | BadAddress
    | Stopping
    | NoReply
    | Reply(status: int, retryAfter: Option<int>)

  function ResultOf(a: Answer): Result {
    match a
    case BadAddress => Result(0, true, false, 0)
    case Stopping => Result(0, true, false, 0)
    case NoReply => Result(0, true, true, 0)
    case Reply(status, after) =>
      var c := Classify(status);
      Result(status, !c.Accepted?, c.TryAgain?, if c.TryAgain? && status == 429 then RetryAfter(after) else 0)
  }

  function NextAttempt(attempts: int, r: Result): Option<int> {
    if !r.retry || attempts < 0 || attempts >= |ATTEMPTS| then None
    else if r.retryAt > 0 then Some(r.retryAt)
    else Some(ATTEMPTS[attempts])
  }

  /** Theorem: after a first attempt every wait is positive and at most ten
      minutes, whatever the far end asked for, and there are three at most. */
  lemma WaitsAreBounded(attempts: int, a: Answer)
    requires attempts >= 1
    ensures var wait := NextAttempt(attempts, ResultOf(a));
      && (wait.Some? ==> 0 < wait.value <= MAX_RETRY_AFTER)
      && (wait.Some? <==> attempts < 4 && (a.NoReply? || (a.Reply? && Classify(a.status).TryAgain?)))
  {
  }

  /** A far end that asks for a delay it can state in ten minutes gets it. */
  lemma AskedDelayIsKept(attempts: int, seconds: int)
    requires 0 <= attempts < 4 && 0 < seconds <= 600
    ensures NextAttempt(attempts, ResultOf(Reply(429, Some(seconds)))) == Some(seconds * SECOND)
  {
  }

  /** What the header asks for, as far as it is believed. */
  function Asked(seconds: int): int {
    if seconds * SECOND > MAX_RETRY_AFTER then MAX_RETRY_AFTER else seconds * SECOND
  }

  lemma Wrapped(turns: nat, r: nat)
    requires r < 2 * TWO_63
    ensures Wrap64(turns * (2 * TWO_63) + r) == if r < TWO_63 then r else r - 2 * TWO_63
  {
    if r < TWO_63 {
      assert turns * (2 * TWO_63) + r + TWO_63 == turns * (2 * TWO_63) + (r + TWO_63);
    } else {
      assert turns * (2 * TWO_63) + r + TWO_63 == (turns + 1) * (2 * TWO_63) + (r - TWO_63);
    }
  }

  /** Theorem: for every positive number of seconds a header can state, what it
      asks for is honoured up to ten minutes, exactly when the product fits 64
      bits or wraps to ten minutes or more. */
  lemma OverflowMisreads(seconds: int)
    requires 0 < seconds < TWO_63
    ensures RetryAfter(Some(seconds)) == Asked(seconds) <==>
              seconds * SECOND < TWO_63
              || MAX_RETRY_AFTER <= (seconds * SECOND) % (2 * TWO_63) < TWO_63
  {
    var d := seconds * SECOND;
    Wrapped(d / (2 * TWO_63), d % (2 * TWO_63));
  }

  /** Theorem: the header is not heard at all, and the schedule decides,
      exactly when the product wraps below zero or to nothing. */
  lemma OverflowFallsBack(attempts: int, seconds: int)
    requires 0 <= attempts < 4 && 0 < seconds < TWO_63
    ensures var wrapped := (seconds * SECOND) % (2 * TWO_63);
      && (RetryAfter(Some(seconds)) <= 0 <==> wrapped == 0 || TWO_63 <= wrapped)
      && (wrapped == 0 || TWO_63 <= wrapped ==>
            NextAttempt(attempts, ResultOf(Reply(429, Some(seconds)))) == Some(ATTEMPTS[attempts]))
  {
    var d := seconds * SECOND;
    Wrapped(d / (2 * TWO_63), d % (2 * TWO_63));
  }

  /** Both happen: the longest header there is wraps to minus one second, and
      one of 585 years to less than a third of one. */
  lemma OverflowWitnesses()
    ensures RetryAfter(Some(TWO_63 - 1)) == -SECOND
    ensures RetryAfter(Some(18446744074)) == 290448384
  {
    Wrapped(SECOND / 2 - 1, 2 * TWO_63 - SECOND);
    Wrapped(1, 290448384);
  }

  // ------------------------------------------------ the row

  datatype DeliveryState = Pending | Sent | Failed

  datatype Delivery = Delivery(
    runId: string, channelId: string, kind: Kind,
    state: DeliveryState, attempts: nat, nextAt: Option<int>, status: int, sentAt: Option<int>)
  {
    predicate Due(now: int) { state == Pending && (nextAt.None? || nextAt.value <= now) }
  }

  function Fresh(runId: string, channelId: string, kind: Kind, now: int): Delivery {
    Delivery(runId, channelId, kind, Pending, 0, Some(now), 0, None)
  }

  /** What an attempt meets: its channel gone, its address sealed for good, or
      an answer. */
  datatype Encounter = Unconfigured | Unsealable | Posted(a: Answer)

  /** fail: the row cannot be attempted at all. */
  function FailedFor(row: Delivery): Delivery {
    row.(attempts := row.attempts + 1, state := Failed, status := 0, nextAt := None)
  }

  /** The row an attempt records, or nothing when this process is stopping. */
  function Attempted(row: Delivery, e: Encounter, now: int): Option<Delivery> {
    match e
    case Unconfigured => Some(FailedFor(row))
    case Unsealable => Some(FailedFor(row))
    case Posted(a) =>
      if a.Stopping? then None
      else
        var r := ResultOf(a);
        var tried := row.(attempts := row.attempts + 1, status := r.status);
        if !r.failed then Some(tried.(state := Sent, sentAt := Some(now), nextAt := None))
        else match NextAttempt(tried.attempts, r)
          case Some(wait) => Some(tried.(state := Pending, nextAt := Some(now + wait)))
          case None => Some(tried.(state := Failed, nextAt := None))
  }

  /** At most three attempts leave a row pending; the fourth settles it. */
  predicate WithinWindow(row: Delivery) {
    row.attempts <= 4 && (row.state == Pending ==> row.attempts <= 3)
  }

  /** Theorem: recording an attempt adds exactly one, keeps the row within its
      window, never touches what the message is about, and puts the next try
      strictly later, by ten minutes at most. */
  lemma AttemptCounts(row: Delivery, e: Encounter, now: int)
    requires row.state == Pending && row.attempts <= 3
    ensures var next := Attempted(row, e, now);
      next.Some? ==>
        && next.value.attempts == row.attempts + 1 && WithinWindow(next.value)
        && next.value.runId == row.runId && next.value.channelId == row.channelId && next.value.kind == row.kind
        && (next.value.state == Pending ==>
              next.value.nextAt.Some? && now < next.value.nextAt.value <= now + MAX_RETRY_AFTER)
        && (next.value.state != Pending ==> next.value.nextAt.None?)
        && (next.value.state == Sent <==> e.Posted? && e.a.Reply? && Classify(e.a.status).Accepted?)
  {
    if e.Posted? && !e.a.Stopping? {
      WaitsAreBounded(row.attempts + 1, e.a);
    }
  }

  /** Theorem: what one attempt makes of a row. It is sent by a 2xx answer and
      by nothing else; it is tried again after silence, a server error or 429,
      as long as this was not the fourth attempt; and everything else is final.
      A process that is stopping leaves the row alone. */
  lemma AttemptSettles(row: Delivery, e: Encounter, now: int)
    ensures var next := Attempted(row, e, now);
      && (next.None? <==> e == Posted(Stopping))
      && (next.Some? ==>
            && next.value.attempts == row.attempts + 1
            && (next.value.state == Sent <==> e.Posted? && e.a.Reply? && 200 <= e.a.status < 300)
            && (next.value.state == Pending <==>
                  && e.Posted? && row.attempts < 3
                  && (e.a.NoReply? || (e.a.Reply? && (e.a.status >= 500 || e.a.status == 429))))
            && (next.value.status == if e.Posted? && e.a.Reply? then e.a.status else 0)
            && (next.value.sentAt == if next.value.state == Sent then Some(now) else row.sentAt)
            && (next.value.nextAt.Some? <==> next.value.state == Pending))
  {
  }

  /** Theorem: the next try comes after half a minute, two minutes and eight
      minutes, unless a 429 asked for a number of seconds: then after that
      many, and after ten minutes at most. */
  lemma NextTryComes(row: Delivery, e: Encounter, now: int)
    requires Attempted(row, e, now).Some? && Attempted(row, e, now).value.state == Pending
    ensures var at := Attempted(row, e, now).value.nextAt.value;
      var asked := if e.a.Reply? && e.a.status == 429 then e.a.retryAfter else None;
      && row.attempts < 3
      && (asked.None? || asked.value <= 0 ==>
            at == now + (if row.attempts == 0 then 30 else if row.attempts == 1 then 120 else 480) * 1_000_000_000)
      && (asked.Some? && 0 < asked.value <= 600 ==> at == now + asked.value * 1_000_000_000)
      && (asked.Some? && 600 < asked.value <= 9_223_372_036 ==> at == now + 600_000_000_000)
  {
    AttemptSettles(row, e, now);
  }

  /** A pending row is due from its appointed time on, and one without a time
      at once. */
  lemma DueMeans(row: Delivery, now: int)
    ensures row.Due(now) <==>
              row.state == Pending && forall t :: row.nextAt == Some(t) ==> t <= now
  {
  }
}
