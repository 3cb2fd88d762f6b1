/**
Whole runs of the logs spool: operations cut anywhere, records that rot, and any
number of openings, each of which may itself be cut or refused.
*/
module LogRuns {
  import opened Keys
  import opened Storage
  import opened LogQueue
  import opened LogSpool
  import opened LogRecovery
  import opened SpoolAccounts
  import opened LogDisk

  datatype Event =
    | Putting(rec: LogRecord)
    | Activating(n: nat)
    | Acking(n: nat)
    | Asiding(n: nat)
    | Rotting(n: nat)
    | Opening

  /** What the bounds checked before an admission leave room for. */
  ghost predicate Affordable(c: Limits, i: LogImage, r: LogRecord) {
    && Overhead(c.maxItems) + Space(i, Current(i)) + Charge(RecordSize(r)) <= c.maxBytes
    && Number(i, Current(i)) + 1 <= c.maxItems
  }

  /**
  j is what an operation, complete or cut anywhere, leaves of i.  Records rot at any
  moment, and an admission that failed half-way does not keep other records from being
  activated.
  */
  ghost predicate Step(key: nat, c: Limits, i: LogImage, e: Event, j: LogImage) {
    match e
    case Putting(r) =>
      && Clean(i, c.scope) && Current(i) + 1 < SEQ_LIMIT && Affordable(c, i, r)
      && !r.ready && !Holds(Logical(i), r.id) && PutCut(i, c.scope, r, j)
    case Activating(n) =>
      Inv(i, c.scope) && ReplacePending !in i && n in Records(i) && !Records(i)[n].ready && ActivateCut(i, n, j)
    case Acking(n) => Clean(i, c.scope) && AckCut(i, n, j)
    case Asiding(n) =>
      Clean(i, c.scope) && Lrec(n) in i && !IsRecord(i[Lrec(n)]) && (j == i || j == Moved(i, Lrec(n), Bad(n)))
    case Rotting(n) => Inv(i, c.scope) && Rots(i, n, j)
    case Opening => Kept(c, i, j)
  }

  ghost predicate Chain(c: Limits, images: seq<LogImage>, events: seq<Event>) {
    && |images| == |events| + 1
    && Openable(c, images[0])
    && forall k :: 0 <= k < |events| ==> Steps(c, images[k], events[k], images[k + 1])
  }

  /** An image a run can leave, and within budget. */
  ghost predicate Openable(c: Limits, i: LogImage) {
    forall k: nat {:trigger Look(SpoolKey, k)} :: Look(SpoolKey, k) ==> WithinBudget(k, c, i)
  }

  ghost predicate WithinBudget(key: nat, c: Limits, i: LogImage) {
    Inv(i, c.scope) && Room(i, c.maxBytes, c.maxItems)
  }

  ghost predicate Steps(c: Limits, i: LogImage, e: Event, j: LogImage) {
    forall k: nat {:trigger Look(SpoolKey, k)} :: Look(SpoolKey, k) ==> Step(k, c, i, e, j)
  }

  /** An event changes the queue by one whole operation, or by none. */
  ghost predicate Atomic(q: Queue, e: Event, r: Queue) {
    || r == q
    || match e
       case Putting(rec) => r == Reserve(q) || r == Admit(q, rec.id, rec.payload)
       case Activating(n) => n in q.recs && r == Activate(q, q.recs[n].id)
       case Acking(n) => r == Without(q, n)
       case Rotting(n) => r == Without(q, n)
       case _ => false
  }

  /** The record that a complete activation names rots. */
  ghost predicate Strikes(i: LogImage, e: Event) { e.Rotting? && Names(i, e.n) }

  lemma StepAtomic(c: Limits, i: LogImage, e: Event, j: LogImage)
    requires Inv(i, c.scope) && Step(0, c, i, e, j)
    ensures Inv(j, c.scope) && Atomic(Logical(i), e, Logical(j))
    ensures Orphaned(j) <==> Orphaned(i) || Strikes(i, e)
  {
    match e
    case Putting(r) => PutCutSafe(i, c.scope, r, j);
    case Activating(n) =>
      LogicalSound(i, c.scope);
      assert n in Logical(i).recs && Logical(i).recs[n].id == Records(i)[n].id;
      ActivateCutSafe(i, c.scope, n, j);
    case Acking(n) => AckCutSafe(i, c.scope, n, j);
    case Asiding(n) => if j != i { QuarantineSame(i, c.scope, n); }
    case Rotting(n) => RotSafe(i, c.scope, n, j);
    case Opening => assert Look(KeptKey, 0);
  }

  /** An admission that passes the checks of an open spool, cut anywhere, is a step; and an open spool is openable. */
  lemma AdmissionSteps(c: Limits, i: LogImage, x: Index, owner: map<nat, Id>, r: LogRecord, j: LogImage)
    requires Good(c, i, x, owner) && r.id !in x.admissions && !r.ready && x.next + 1 < SEQ_LIMIT
    requires x.count < c.maxItems && x.bytes + Charge(RecordSize(r)) <= c.maxBytes
    requires PutCut(i, c.scope, r, j)
    ensures Openable(c, i) && Steps(c, i, Putting(r), j)
  {
    FreshId(c, i, x, owner, r.id);
    assert Look(SpoolKey, 0);
  }

  // ---------- the budget ----------

  /** No record file has grown, and nothing new is staged. */
  lemma SameRoom(c: Limits, i: LogImage, j: LogImage)
    requires Room(i, c.maxBytes, c.maxItems) && Current(j) == Current(i)
    requires Staged(j) ==> Staged(i) && j[Pending] == i[Pending]
    requires forall n: nat :: Lrec(n) in j ==> Lrec(n) in i && Size(j[Lrec(n)]) <= Size(i[Lrec(n)])
    ensures Room(j, c.maxBytes, c.maxItems)
  {
    TotalMonotone(SpaceOf(j), SpaceOf(i), Current(i));
    TotalMonotone(OneEach(j), OneEach(i), Current(i));
  }

  lemma ReservedRoom(c: Limits, i: LogImage, r: LogRecord)
    requires Clean(i, c.scope) && Affordable(c, i, r)
    ensures var k := Reserved(i, c.scope, Current(i) + 1);
            Current(k) == Current(i) + 1
            && Space(k, Current(k)) == Space(i, Current(i)) && Number(k, Current(k)) == Number(i, Current(i))
  {
    var k := Reserved(i, c.scope, Current(i) + 1);
    TotalFrame(SpaceOf(i), SpaceOf(k), Current(i));
    TotalExtend(SpaceOf(k), Current(i), Current(k));
    TotalFrame(OneEach(i), OneEach(k), Current(i));
    TotalExtend(OneEach(k), Current(i), Current(k));
  }

  lemma StagedRoom(c: Limits, i: LogImage, k: LogImage, r: LogRecord, j: LogImage)
    requires Affordable(c, i, r) && Current(k) == Current(i) + 1
    requires Space(k, Current(k)) == Space(i, Current(i)) && Number(k, Current(k)) == Number(i, Current(i))
    requires Pending !in k && StageCut(k, Pending, Record(r), j)
    ensures Room(j, c.maxBytes, c.maxItems)
  {
    TotalFrame(SpaceOf(k), SpaceOf(j), Current(k));
    TotalFrame(OneEach(k), OneEach(j), Current(k));
  }

  lemma PlacedRoom(c: Limits, i: LogImage, k: LogImage, r: LogRecord)
    requires Affordable(c, i, r) && Current(k) == Current(i) + 1 && Lrec(Current(i)) !in k
    requires Space(k, Current(k)) == Space(i, Current(i)) && Number(k, Current(k)) == Number(i, Current(i))
    requires Pending !in k
    ensures Room(Replaced(k, Pending, Lrec(Current(i)), Record(r)), c.maxBytes, c.maxItems)
  {
    var j := Replaced(k, Pending, Lrec(Current(i)), Record(r));
    TotalChange(SpaceOf(k), SpaceOf(j), Current(i), Current(k));
    TotalChange(OneEach(k), OneEach(j), Current(i), Current(k));
  }

  lemma PutRoom(c: Limits, i: LogImage, r: LogRecord, j: LogImage)
    requires Step(0, c, i, Putting(r), j) && Room(i, c.maxBytes, c.maxItems)
    ensures Room(j, c.maxBytes, c.maxItems)
  {
    assert Succ(Current(i)) == Current(i) + 1;
    var k := Reserved(i, c.scope, Current(i) + 1);
    ReservedRoom(c, i, r);
    if StageCut(i, ManifestPending, Manifest(c.scope, Current(i) + 1), j) {
      SameRoom(c, i, j);
    } else if j == k {
      assert Room(k, c.maxBytes, c.maxItems);
    } else if StageCut(k, Pending, Record(r), j) {
      StagedRoom(c, i, k, r, j);
    } else {
      PlacedRoom(c, i, k, r);
    }
  }

  lemma StepRoom(c: Limits, i: LogImage, e: Event, j: LogImage)
    requires Inv(i, c.scope) && Room(i, c.maxBytes, c.maxItems) && Step(0, c, i, e, j)
    ensures Room(j, c.maxBytes, c.maxItems)
  {
    match e
    case Putting(r) => PutRoom(c, i, r, j);
    case Opening => assert Look(KeptKey, 0);
    case _ => SameRoom(c, i, j);
  }

  // ---------- whole runs ----------

  lemma StepSafe(c: Limits, i: LogImage, e: Event, j: LogImage)
    requires Openable(c, i) && Steps(c, i, e, j)
    ensures Openable(c, j) && Sound(Logical(i)) && Atomic(Logical(i), e, Logical(j))
    ensures Orphaned(j) <==> Orphaned(i) || Strikes(i, e)
  {
    assert Look(SpoolKey, 0);
    LogicalSound(i, c.scope);
    StepAtomic(c, i, e, j);
    StepRoom(c, i, e, j);
  }

  lemma {:induction false} RunOpenable(c: Limits, images: seq<LogImage>, events: seq<Event>, k: nat)
    requires Chain(c, images, events) && k <= |events|
    ensures Openable(c, images[k])
  {
    if k > 0 {
      RunOpenable(c, images, events, k - 1);
      StepSafe(c, images[k - 1], events[k - 1], images[k]);
    }
  }

  /**
  Along a run every image denotes a sound queue, can be opened within its budget,
  and each event changed the queue by one whole operation or by none.
  */
  lemma RunSafe(c: Limits, images: seq<LogImage>, events: seq<Event>, k: nat)
    requires Chain(c, images, events) && k <= |events|
    ensures Inv(images[k], c.scope) && Room(images[k], c.maxBytes, c.maxItems)
    ensures k < |events| ==> Sound(Logical(images[k])) && Atomic(Logical(images[k]), events[k], Logical(images[k + 1]))
  {
    RunOpenable(c, images, events, k);
    if k < |events| {
      StepSafe(c, images[k], events[k], images[k + 1]);
    }
    assert Look(SpoolKey, 0);
  }

  /** A record passes from one queue to the next: same identity, same payload, no less ready. */
  ghost predicate Passes(q: Queue, r: Queue, n: nat) {
    n in q.recs ==>
      && n in r.recs && r.recs[n].id == q.recs[n].id && r.recs[n].payload == q.recs[n].payload
      && (q.recs[n].ready ==> r.recs[n].ready)
  }

  /** One operation keeps every record it does not name, and gives no old number away. */
  lemma AtomicKeeps(q: Queue, e: Event, r: Queue, n: nat)
    requires Atomic(q, e, r) && Sound(q)
    ensures q.next <= r.next
    ensures e != Acking(n) && e != Rotting(n) ==> Passes(q, r, n)
    ensures n in q.recs && !q.recs[n].ready && n in r.recs && r.recs[n].ready ==> e == Activating(n)
    ensures n < q.next && n !in q.recs ==> n !in r.recs
  {
  }

  lemma ChainKeeps(c: Limits, images: seq<LogImage>, events: seq<Event>, k: nat, n: nat)
    requires Chain(c, images, events) && k < |events|
    ensures var q, r := Logical(images[k]), Logical(images[k + 1]);
            && q.next <= r.next
            && (events[k] != Acking(n) && events[k] != Rotting(n) ==> Passes(q, r, n))
            && (n in q.recs && !q.recs[n].ready && n in r.recs && r.recs[n].ready ==> events[k] == Activating(n))
            && (n < q.next && n !in q.recs ==> n !in r.recs)
  {
    RunOpenable(c, images, events, k);
    StepSafe(c, images[k], events[k], images[k + 1]);
    AtomicKeeps(Logical(images[k]), events[k], Logical(images[k + 1]), n);
  }

  /**
  No admitted record is lost, changed or readied unasked, and no number is given out
  twice, however often the machine stops and whatever it stops in.
  */
  lemma {:induction false} RecordSurvives(c: Limits, images: seq<LogImage>, events: seq<Event>, a: nat, b: nat, n: nat)
    requires Chain(c, images, events) && a <= b <= |events|
    requires forall k :: a <= k < b ==> events[k] != Acking(n) && events[k] != Rotting(n)
    ensures var q, r := Logical(images[a]), Logical(images[b]);
            && q.next <= r.next
            && Passes(q, r, n)
            && (n in q.recs && !q.recs[n].ready && r.recs[n].ready ==> exists k :: a <= k < b && events[k] == Activating(n))
    decreases b
  {
    if a < b {
      RecordSurvives(c, images, events, a, b - 1, n);
      ChainKeeps(c, images, events, b - 1, n);
    }
  }

  /** A number that was given out and is free stays free. */
  lemma {:induction false} NumberNeverReused(c: Limits, images: seq<LogImage>, events: seq<Event>, a: nat, b: nat, n: nat)
    requires Chain(c, images, events) && a <= b <= |events|
    requires n < Logical(images[a]).next && n !in Logical(images[a]).recs
    ensures n < Logical(images[b]).next && n !in Logical(images[b]).recs
    decreases b
  {
    if a < b {
      NumberNeverReused(c, images, events, a, b - 1, n);
      ChainKeeps(c, images, events, b - 1, n);
    }
  }

  // ---------- where the spool stops being able to open ----------

  /**
  An activation is orphaned, and no opening of the spool succeeds, exactly when the
  record it names has rotted while it was staged.
  */
  lemma {:induction false} OrphanedByRot(c: Limits, images: seq<LogImage>, events: seq<Event>, k: nat)
    requires Chain(c, images, events) && k <= |events| && !Orphaned(images[0])
    ensures Orphaned(images[k]) <==> exists a :: 0 <= a < k && Strikes(images[a], events[a])
  {
    if k > 0 {
      OrphanedByRot(c, images, events, k - 1);
      RunOpenable(c, images, events, k - 1);
      StepSafe(c, images[k - 1], events[k - 1], images[k]);
      if Strikes(images[k - 1], events[k - 1]) {
        assert 0 <= k - 1 < k;
      }
    }
  }

  /** The last sequence is given out, and the control file that says so is refused. */
  lemma PutOpensIff(i: LogImage, scope: string, r: LogRecord)
    requires Clean(i, scope) && !r.ready && !Holds(Logical(i), r.id)
    ensures Clean(Put(i, scope, r), scope) <==> Current(i) + 1 < SEQ_LIMIT
    ensures RefusedControl(Put(i, scope, r), scope) <==> Current(i) + 1 == SEQ_LIMIT
  {
    if Current(i) + 1 < SEQ_LIMIT {
      assert Succ(Current(i)) == Current(i) + 1;
      PutCutSafe(i, scope, r, Put(i, scope, r));
    } else {
      assert Put(i, scope, r)[ManifestJson] == Whole(Manifest(scope, 0));
    }
  }

  /**
  A record is bounded before it is normalized; one that normalization makes longer
  than the reading bound is stored, and is then too long for any opening.
  */
  lemma PutReadableIff(i: LogImage, scope: string, r: LogRecord)
    requires Clean(i, scope)
    ensures RecordsReadable(Put(i, scope, r)) <==> RecordsReadable(i) && RecordSize(r) <= READ_LIMIT
  {
    var j := Put(i, scope, r);
    assert Lrec(Current(i)) !in i;
    assert forall k :: k in i && k != ManifestJson ==> k in j && j[k] == i[k];
    assert j[Lrec(Current(i))] == Whole(Record(r));
  }

  /**
  A record kept aside no longer counts against the budget, but its file still counts as
  an entry, and entries are what TooMany counts.
  */
  lemma AsideKeepsEntry(i: LogImage, scope: string, n: nat)
    requires Clean(i, scope) && Lrec(n) in i && Bad(n) !in i
    ensures var j := Moved(i, Lrec(n), Bad(n)); |j| == |i| && Tally(j) == Tally(i) - 1
  {
    var j := Moved(i, Lrec(n), Bad(n));
    assert j.Keys == i.Keys - {Lrec(n)} + {Bad(n)};
    assert |j| == |j.Keys| && |i| == |i.Keys|;
    TotalChange(OneEach(i), OneEach(j), n, Current(i));
  }
}
