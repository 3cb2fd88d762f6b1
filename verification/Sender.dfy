/**
Sending one batch: bounded attempts, what counts as accepted, and how long to wait.
*/
module Sender {
  import opened Keys
  import opened Storage

  datatype Signal = Metrics | Logs

  datatype Outcome = Accepted | Rejected | Unauthorized | Exhausted | Cancelled

  // ---------- waiting ----------

  /** A Retry-After value: whole seconds, a date, or anything else; times in nanoseconds. */
  datatype Header = Seconds(n: nat) | Date(at: int) | Unparsed

  const SECOND: int := 1_000_000_000
  const MILLISECOND: int := 1_000_000
  const MAX_DURATION: int := 0x7FFF_FFFF_FFFF_FFFF
  const LOGS_BOUND: int := 1800 * SECOND

  function Min(a: int, b: int): int { if a <= b then a else b }

  function Doubled(attempt: nat): nat { if attempt == 0 then 1 else 2 * Doubled(attempt - 1) }

  /** Jitter is below 500 ms.  A date far ahead saturates as time differences do. */
  function RetryDelay(h: Header, attempt: nat, now: int, jitter: nat): int {
    if h.Seconds? then
      if h.n > MAX_DURATION / SECOND then MAX_DURATION else h.n * SECOND
    else if h.Date? && h.at > now then Min(h.at - now, MAX_DURATION)
    else Min(Doubled(attempt) * SECOND, 30 * SECOND) + jitter * MILLISECOND
  }

  function DelayFor(signal: Signal, h: Header, attempt: nat, now: int, jitter: nat): int {
    var delay := RetryDelay(h, attempt, now, jitter);
    if signal.Logs? then Min(delay, LOGS_BOUND) else delay
  }

  lemma {:induction false} DoubledGrows(a: nat, b: nat)
    requires a <= b
    ensures 1 <= Doubled(a) <= Doubled(b)
    decreases b
  {
    if a < b { DoubledGrows(a, b - 1); } else if a > 0 { DoubledGrows(a - 1, b - 1); }
  }

  /** No delay overflows 64 bits, and doubling stays within them for the attempts configured. */
  lemma DelayFits(signal: Signal, h: Header, attempt: nat, now: int, jitter: nat)
    requires attempt < 8 && jitter < 500
    ensures 0 <= DelayFor(signal, h, attempt, now, jitter) <= MAX_DURATION
    ensures signal.Logs? ==> DelayFor(signal, h, attempt, now, jitter) <= LOGS_BOUND
    ensures Doubled(attempt) * SECOND <= MAX_DURATION
  {
    DoubledGrows(attempt, 7);
    assert Doubled(7) == 128 by {
      assert Doubled(3) == 8;
      assert Doubled(5) == 32;
    }
  }

  /** A metrics retry waits exactly the seconds the server asked for, if and only if that many fit. */
  lemma SecondsHonoredIff(n: nat, attempt: nat, now: int, jitter: nat)
    ensures DelayFor(Metrics, Seconds(n), attempt, now, jitter) == n * SECOND <==> n * SECOND <= MAX_DURATION
    ensures DelayFor(Logs, Seconds(n), attempt, now, jitter) == n * SECOND <==> n <= 1800
  {
  }

  /** A date ahead is waited for exactly, if and only if it is no further than times can differ, or for logs thirty minutes. */
  lemma DateHonoredIff(at: int, attempt: nat, now: int, jitter: nat)
    requires at > now
    ensures DelayFor(Metrics, Date(at), attempt, now, jitter) == at - now <==> at - now <= MAX_DURATION
    ensures DelayFor(Logs, Date(at), attempt, now, jitter) == at - now <==> at - now <= LOGS_BOUND
    ensures DelayFor(Logs, Date(at), attempt, now, jitter) == LOGS_BOUND <==> at - now >= LOGS_BOUND
  {
  }

  /** Without a usable header, jitter aside, the wait begins at one second and doubles up to thirty. */
  lemma BackoffDoubles(signal: Signal, attempt: nat, now: int, jitter: nat)
    requires jitter < 500
    ensures DelayFor(signal, Unparsed, 0, now, jitter) == SECOND + jitter * MILLISECOND
    ensures var wait := DelayFor(signal, Unparsed, attempt, now, jitter) - jitter * MILLISECOND;
            DelayFor(signal, Unparsed, attempt + 1, now, jitter) == Min(2 * wait, 30 * SECOND) + jitter * MILLISECOND
  {
  }

  /** Without a usable header the wait grows from one second to thirty, and half a second of jitter. */
  lemma BackoffBounds(signal: Signal, h: Header, attempt: nat, now: int, jitter: nat)
    requires h.Unparsed? || (h.Date? && h.at <= now)
    requires jitter < 500
    ensures SECOND <= DelayFor(signal, h, attempt, now, jitter) < 30 * SECOND + 500 * MILLISECOND
    ensures attempt >= 5 ==> DelayFor(signal, h, attempt, now, jitter) == 30 * SECOND + jitter * MILLISECOND
  {
    DoubledGrows(0, attempt);
    if attempt >= 5 {
      DoubledGrows(5, attempt);
      assert Doubled(2) == 4 && Doubled(5) == 32;
    }
  }

  // ---------- what a response means ----------

  datatype Parsed = Blank | NotNumber | Number(n: nat)

  datatype Field = Absent | Malformed | Partial(points: Parsed, records: Parsed)

  datatype Wrapped = NoData | NullData | BadData | Data(inner: Field)

  /** A body: not readable within 64 KiB, empty or null, not an object, or an object, perhaps wrapping another. */
  datatype Body = Unread | Nothing | Garbled | Object(outer: Field, data: Wrapped)

  /** A wrapped object adds its members to the outer ones; a wrapped null leaves none. */
  function FieldOf(b: Body): Field
    requires b.Object?
  {
    if b.data.NullData? then Absent
    else if b.data.Data? && !b.data.inner.Absent? then b.data.inner
    else b.outer
  }

  datatype Verdict = Denied | Accept(rejected: nat) | Refuse(rejected: nat) | Retry(throttled: bool)

  function Success(signal: Signal, b: Body): Verdict {
    match b
    case Unread => Refuse(0)
    case Nothing => Accept(0)
    case Garbled => Refuse(0)
    case Object(_, data) =>
      if data.BadData? then Refuse(0)
      else match FieldOf(b)
        case Absent => Accept(0)
        case Malformed => Refuse(0)
        case Partial(points, records) =>
          match if signal.Logs? then records else points
          case Blank => Accept(0)
          case NotNumber => Refuse(0)
          case Number(n) => if n > 0 && !signal.Logs? then Refuse(n) else Accept(n)
  }

  function Judge(signal: Signal, status: nat, b: Body): Verdict {
    if status == 401 || status == 403 then Denied
    else if 200 <= status < 300 then Success(signal, b)
    else if status == 429 || (status >= 500 && status != 501 && status != 505) then Retry(status == 429)
    else Refuse(0)
  }

  /** A partial success that says nothing against accepting the batch. */
  predicate Harmless(signal: Signal, f: Field) {
    || f.Absent?
    || (f.Partial? && signal.Logs? && !f.records.NotNumber?)
    || (f.Partial? && signal.Metrics? && (f.points.Blank? || f.points == Number(0)))
  }

  /** Metrics are accepted only if the members read reject no point; logs whatever part the server rejects. */
  lemma AcceptedWhole(signal: Signal, status: nat, b: Body)
    ensures Judge(signal, status, b).Accept? ==> 200 <= status < 300
    ensures signal.Metrics? && Judge(signal, status, b).Accept? ==> Judge(signal, status, b).rejected == 0
    ensures Judge(signal, status, b).Accept?
            <==> 200 <= status < 300 && (b.Nothing? || (b.Object? && !b.data.BadData? && Harmless(signal, FieldOf(b))))
    ensures 200 <= status < 300 && b.Object? && !b.data.BadData? && FieldOf(b).Partial? && FieldOf(b).points.Number?
            && FieldOf(b).records.Number? ==>
              (Judge(signal, status, b).Accept? <==> signal.Logs? || FieldOf(b).points.n == 0)
  {
  }

  /** Points that the outer object rejects are overlooked exactly when null data hides it, or data speaks for itself. */
  lemma RejectionOverlookedIff(status: nat, b: Body)
    requires 200 <= status < 300 && b.Object? && b.outer.Partial? && b.outer.points.Number? && b.outer.points.n > 0
    ensures Judge(Metrics, status, b).Accept?
            <==> b.data.NullData?
                 || (b.data.Data? && b.data.inner.Partial?
                     && (b.data.inner.points.Blank? || (b.data.inner.points.Number? && b.data.inner.points.n == 0)))
  {
  }

  // ---------- the loop ----------

  /** One attempt as the environment answers it. */
  datatype Reply =
    | NoCredentials
    | Failure(permanent: bool, cancelled: bool)
    | Response(status: nat, body: Body, header: Header)

  /** One turn of the loop as the environment has it: cancelled before, the answer, the clock, the jitter, the wait survived. */
  datatype Turn = Turn(gone: bool, reply: Reply, now: int, jitter: nat, slept: bool)

  /** What ends the loop at this attempt, if anything does. */
  function Ending(signal: Signal, t: Turn, final: bool): Option<Outcome> {
    if t.gone then Some(Cancelled)
    else if t.reply.NoCredentials? || Denies(signal, t.reply) then Some(Unauthorized)
    else if Accepts(signal, t.reply) then Some(Accepted)
    else if !Transient(signal, t.reply) then Some(Rejected)
    else if t.reply.Failure? && t.reply.cancelled then Some(Cancelled)
    else if final && (t.reply.Failure? || t.slept) then Some(Exhausted)
    else if !t.slept then Some(Cancelled)
    else None
  }

  predicate Denies(signal: Signal, reply: Reply) {
    reply.Response? && (reply.status == 401 || reply.status == 403)
  }

  predicate Accepts(signal: Signal, reply: Reply) {
    reply.Response? && 200 <= reply.status < 300 && Success(signal, reply.body).Accept?
  }

  /** Worth another attempt: an interrupted exchange, too many requests, or a server error that may pass. */
  predicate Transient(signal: Signal, reply: Reply) {
    || (reply.Failure? && !reply.permanent)
    || (reply.Response? && (reply.status == 429 || (reply.status >= 500 && reply.status !in {501, 505})))
  }

  /** Points or records the answer rejects. */
  function RejectedBy(signal: Signal, reply: Reply): nat {
    if reply.Response? && 200 <= reply.status < 300 then Success(signal, reply.body).rejected else 0
  }

  /** The wait after an attempt. */
  function WaitAfter(signal: Signal, t: Turn, attempt: nat): int {
    DelayFor(signal, if t.reply.Response? then t.reply.header else Unparsed, attempt, t.now, t.jitter)
  }

  function Throttled(turns: nat -> Turn, n: nat): nat {
    if n == 0 then 0
    else Throttled(turns, n - 1) + if turns(n - 1).reply.Response? && turns(n - 1).reply.status == 429 then 1 else 0
  }

  /** An attempt ends the loop this way, or goes on, and its answer rejects that many. */
  ghost predicate Concludes(signal: Signal, t: Turn, final: bool, end: Option<Outcome>, rejected: int) {
    forall k: nat {:trigger Look(TurnKey, k)} :: Look(TurnKey, k) ==>
      end == Ending(signal, t, final) && rejected == RejectedBy(signal, t.reply)
  }

  /** The wait that the server, or without a header the backoff, asks for. */
  ghost predicate Asked(signal: Signal, t: Turn, attempt: nat, wait: int) {
    forall k: nat {:trigger Look(TurnKey, k)} :: Look(TurnKey, k) ==> wait == WaitAfter(signal, t, attempt)
  }

  /** The first attempts all go on to another. */
  ghost predicate GoOn(signal: Signal, turns: nat -> Turn, n: int)
    decreases n
  {
    n <= 0 || (GoOn(signal, turns, n - 1) && Concludes(signal, turns(n - 1), false, None, 0))
  }

  lemma {:induction false} GoOnAt(signal: Signal, turns: nat -> Turn, n: int, k: nat)
    requires GoOn(signal, turns, n) && k < n
    ensures Ending(signal, turns(k), false).None?
    decreases n
  {
    if k < n - 1 { GoOnAt(signal, turns, n - 1, k); } else { assert Look(TurnKey, 0); }
  }

  /** These are the waits after the first attempts. */
  ghost predicate Waits(signal: Signal, turns: nat -> Turn, waits: seq<int>) {
    forall i: nat {:trigger Look(TurnKey, i)} :: Look(TurnKey, i) ==>
      forall k :: 0 <= k < |waits| ==> waits[k] == WaitAfter(signal, turns(k), k)
  }

  lemma WaitsOn(signal: Signal, turns: nat -> Turn, waits: seq<int>, more: seq<int>)
    requires Waits(signal, turns, waits) && |more| <= 1 && forall w :: w in more ==> Asked(signal, turns(|waits|), |waits|, w)
    ensures Waits(signal, turns, waits + more)
  {
    assert Look(TurnKey, 0);
    assert more != [] ==> more[0] in more;
  }

  class Sender {
    const signal: Signal
    const maxAttempts: nat
    var retriedRecords: nat
    var authFailures: nat
    var exportFailures: nat
    var retries: nat
    var throttles: nat
    var batchesAccepted: nat
    var pointsRejected: nat

    constructor (signal: Signal, maxAttempts: nat)
      ensures this.signal == signal && this.maxAttempts == maxAttempts
      ensures retriedRecords == authFailures == exportFailures == retries == throttles == batchesAccepted == pointsRejected == 0
    {
      this.signal, this.maxAttempts := signal, maxAttempts;
      retriedRecords, authFailures, exportFailures := 0, 0, 0;
      retries, throttles, batchesAccepted, pointsRejected := 0, 0, 0, 0;
    }

    /**
    Send until accepted, refused, cancelled or out of attempts.  Every attempt but the
    last is one that goes on, and the last one, or a cancellation before the next, says how
    it ends.  Every attempt begun is accounted for as a failure or as the one acceptance,
    and every wait is the one the server or the backoff asks for.
    */
    method Send(turns: nat -> Turn) returns (outcome: Outcome, ghost begun: nat, ghost waits: seq<int>, ghost cut: bool)
      modifies this
      ensures begun <= maxAttempts
      ensures GoOn(signal, turns, begun - 1) && Waits(signal, turns, waits)
      ensures cut ==> begun < maxAttempts && turns(begun).gone && GoOn(signal, turns, begun)
      ensures cut ==> outcome.Cancelled? && pointsRejected == old(pointsRejected)
      ensures !cut && maxAttempts > 0 ==>
                begun > 0 && Concludes(signal, turns(begun - 1), begun == maxAttempts, Some(outcome), pointsRejected - old(pointsRejected))
      ensures maxAttempts == 0 ==> outcome.Exhausted? && begun == 0
      ensures begun == (exportFailures - old(exportFailures)) + (batchesAccepted - old(batchesAccepted))
      ensures batchesAccepted == old(batchesAccepted) + if outcome.Accepted? then 1 else 0
      ensures authFailures == old(authFailures) + if outcome.Unauthorized? then 1 else 0
      ensures outcome.Accepted? && signal.Metrics? ==> pointsRejected == old(pointsRejected)
      ensures throttles == old(throttles) + Throttled(turns, begun)
      ensures outcome.Exhausted? ==> begun == maxAttempts && |waits| >= maxAttempts - 1
      ensures begun - 1 <= |waits| <= begun
      ensures retries - old(retries) == if 0 < |waits| == maxAttempts then |waits| - 1 else |waits|
      ensures begun > 0 ==> begun - 1 <= retriedRecords - old(retriedRecords) <= begun
    {
      outcome, begun, waits, cut := Exhausted, 0, [], false;
      var attempt := 0;
      while attempt < maxAttempts
        invariant attempt < maxAttempts || attempt == maxAttempts == 0
        invariant begun == attempt == |waits| && retries == old(retries) + attempt
        invariant exportFailures == old(exportFailures) + attempt && batchesAccepted == old(batchesAccepted)
        invariant authFailures == old(authFailures) && pointsRejected == old(pointsRejected)
        invariant throttles == old(throttles) + Throttled(turns, attempt)
        invariant retriedRecords == old(retriedRecords) + if attempt > 0 then attempt - 1 else 0
        invariant outcome.Exhausted? && !cut
        invariant GoOn(signal, turns, attempt) && Waits(signal, turns, waits)
        decreases maxAttempts - attempt
      {
        if attempt > 0 {
          retriedRecords := retriedRecords + 1;
        }
        var turn := turns(attempt);
        if turn.gone {
          outcome, cut := Cancelled, true;
          break;
        }
        begun := begun + 1;
        ghost var wait;
        var end;
        end, wait := Attempt(turn, attempt);
        WaitsOn(signal, turns, waits, wait);
        waits := waits + wait;
        if end.Some? {
          outcome := end.value;
          break;
        }
        attempt := attempt + 1;
      }
    }

    /** One attempt: what its answer counts as, and the wait after it, which a server may ask for even after the last. */
    method Attempt(turn: Turn, attempt: nat) returns (end: Option<Outcome>, ghost wait: seq<int>)
      requires attempt < maxAttempts && !turn.gone
      modifies `authFailures, `exportFailures, `retries, `throttles, `batchesAccepted, `pointsRejected
      ensures Concludes(signal, turn, attempt + 1 == maxAttempts, end, pointsRejected - old(pointsRejected))
      ensures exportFailures == old(exportFailures) + if end == Some(Accepted) then 0 else 1
      ensures batchesAccepted == old(batchesAccepted) + if end == Some(Accepted) then 1 else 0
      ensures authFailures == old(authFailures) + if end == Some(Unauthorized) then 1 else 0
      ensures end.None? || (end == Some(Accepted) && signal.Metrics?) ==> pointsRejected == old(pointsRejected)
      ensures throttles == old(throttles) + if turn.reply.Response? && turn.reply.status == 429 then 1 else 0
      ensures |wait| <= 1 && forall w :: w in wait ==> Asked(signal, turn, attempt, w)
      ensures wait != [] <==> Transient(signal, turn.reply)
                              && (turn.reply.Response? || (!turn.reply.cancelled && attempt + 1 < maxAttempts))
      ensures end.None? ==> wait != [] && attempt + 1 < maxAttempts
      ensures end == Some(Exhausted) ==> attempt + 1 == maxAttempts
      ensures retries == old(retries) + if wait != [] && attempt + 1 < maxAttempts then 1 else 0
    {
      wait := [];
      match turn.reply {
        case NoCredentials =>
          authFailures, exportFailures := authFailures + 1, exportFailures + 1;
          return Some(Unauthorized), wait;
        case Failure(permanent, stopped) =>
          exportFailures := exportFailures + 1;
          if permanent { return Some(Rejected), wait; }
          if stopped { return Some(Cancelled), wait; }
          if attempt + 1 == maxAttempts { return Some(Exhausted), wait; }
          retries := retries + 1;
          wait := [DelayFor(signal, Unparsed, attempt, turn.now, turn.jitter)];
          return if turn.slept then None else Some(Cancelled), wait;
        case Response(status, body, header) =>
          match Judge(signal, status, body) {
            case Denied =>
              authFailures, exportFailures := authFailures + 1, exportFailures + 1;
              return Some(Unauthorized), wait;
            case Accept(n) =>
              pointsRejected, batchesAccepted := pointsRejected + n, batchesAccepted + 1;
              return Some(Accepted), wait;
            case Refuse(n) =>
              pointsRejected, exportFailures := pointsRejected + n, exportFailures + 1;
              return Some(Rejected), wait;
            case Retry(throttled) =>
              exportFailures := exportFailures + 1;
              if throttled { throttles := throttles + 1; }
              if attempt + 1 < maxAttempts { retries := retries + 1; }
              wait := [DelayFor(signal, header, attempt, turn.now, turn.jitter)];
              if !turn.slept { return Some(Cancelled), wait; }
              return if attempt + 1 == maxAttempts then Some(Exhausted) else None, wait;
          }
      }
    }
  }
}
