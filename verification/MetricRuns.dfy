/**
Whole runs of the metrics spool: operations cut anywhere, rot, openings and migrations
cut or refused any number of times.
*/
module MetricRuns {
  import opened Keys
  import opened Storage
  import opened SpoolAccounts
  import opened MetricSpool
  import opened MetricMigration
  import opened MetricAccounts
  import opened MetricOpening

  datatype Event =
    | Putting(data: string)
    | Acking(n: nat)
    | Asiding(n: nat)
    | Rotting(k: MetricName)
    | Opening

  /** What the bounds checked before a Put leave room for. */
  ghost predicate Affordable(c: Settings, i: MetricImage, data: string) {
    Overhead(c) + Space(i) + Charge(RecordSize(data)) <= c.maxBytes && Number(i) + 1 <= c.maxItems
  }

  /** In the middle of a move only the backup is never rotten. */
  ghost predicate MayRot(c: Settings, i: MetricImage, k: MetricName) {
    Known(c, i) && (k.Backup? ==> Inv(i, c.version, c.scope) || (c.version == 2 && Inv(i, 1, c.legacy)))
  }

  /**
  j is what an operation, complete or cut anywhere, leaves of i.  Rot is possible at any
  moment, also between the steps of an operation or of a move.
  */
  ghost predicate Step(key: nat, c: Settings, i: MetricImage, e: Event, j: MetricImage) {
    match e
    case Putting(data) =>
      Clean(i, c.version, c.scope) && NextOf(i) < LAST && Affordable(c, i, data) && PutCut(i, c.version, c.scope, data, j)
    case Acking(n) => Clean(i, c.version, c.scope) && AckCut(i, n, j)
    case Asiding(n) =>
      Clean(i, c.version, c.scope) && Rec(n) in i && !IsPayload(i[Rec(n)]) && (j == i || j == Moved(i, Rec(n), Bad(n)))
    case Rotting(k) => MayRot(c, i, k) && Rots(i, k, j)
    case Opening => Kept(c, i, j)
  }

  ghost predicate Steps(c: Settings, i: MetricImage, e: Event, j: MetricImage) {
    forall k: nat {:trigger Look(MetricsKey, k)} :: Look(MetricsKey, k) ==> Step(k, c, i, e, j)
  }

  ghost predicate WithinBudget(key: nat, c: Settings, i: MetricImage) { Known(c, i) && Room(c, i) }

  /** An image that opening knows, and within budget. */
  ghost predicate Openable(c: Settings, i: MetricImage) {
    forall k: nat {:trigger Look(MetricsKey, k)} :: Look(MetricsKey, k) ==> WithinBudget(k, c, i)
  }

  ghost predicate Chain(c: Settings, images: seq<MetricImage>, events: seq<Event>) {
    && |images| == |events| + 1
    && Openable(c, images[0])
    && forall k :: 0 <= k < |events| ==> Steps(c, images[k], events[k], images[k + 1])
  }

  /** An event changes the queue by one whole operation, or by none; rot of a control copy may skip a number. */
  ghost predicate Atomic(q: Fifo, e: Event, r: Fifo) {
    || r == q
    || match e
       case Putting(data) => r == Reserve(q) || r == Append(q, data)
       case Acking(n) => r == Without(q, n)
       case Rotting(k) => if k.Rec? then r == Without(q, k.n) else r == Reserve(q)
       case _ => false
  }

  lemma RotKnown(c: Settings, i: MetricImage, k: MetricName, j: MetricImage)
    requires MayRot(c, i, k) && Rots(i, k, j)
    ensures Known(c, j) && Atomic(Logical(i), Rotting(k), Logical(j))
    ensures NextOf(i) <= NextOf(j) && (k.Rec? ==> NextOf(j) == NextOf(i))
  {
    if Inv(i, c.version, c.scope) {
      RotSafe(i, c.version, c.scope, k, j);
    } else if Inv(i, 1, c.legacy) {
      RotSafe(i, 1, c.legacy, k, j);
    } else {
      RotMigrating(i, FormerOf(c, i), c.scope, k, j);
      assert FormerOf(c, j) == FormerOf(c, i);
    }
    if k.Rec? { assert NextOf(j) == NextOf(i); }
  }

  lemma StepAtomic(c: Settings, i: MetricImage, e: Event, j: MetricImage)
    requires Known(c, i) && Step(0, c, i, e, j)
    ensures Known(c, j) && Atomic(Logical(i), e, Logical(j))
  {
    match e
    case Putting(data) => PutCutSafe(i, c.version, c.scope, data, j);
    case Acking(n) => AckCutSafe(i, c.version, c.scope, n, j);
    case Asiding(n) => if j != i { AsideSafe(i, c.version, c.scope, n); }
    case Rotting(k) => RotKnown(c, i, k, j);
    case Opening => assert Look(KeptKey, 0);
  }

  /** A Put that passes the checks of an open spool, cut anywhere, is a step; and an open spool is openable. */
  lemma PutSteps(c: Settings, i: MetricImage, x: MetricIndex, data: string, j: MetricImage)
    requires Good(c, i, x) && x.next < LAST
    requires x.count < c.maxItems && x.bytes + Charge(RecordSize(data)) <= c.maxBytes
    requires PutCut(i, c.version, c.scope, data, j)
    ensures Openable(c, i) && Steps(c, i, Putting(data), j)
  {
    assert Look(MetricsKey, 0);
  }

  // ---------- the budget ----------

  /** The same record files cost the same, whatever numbers were used up. */
  lemma SameTotals(i: MetricImage, j: MetricImage)
    requires forall n: nat :: Rec(n) in i || Bad(n) in i ==> n < NextOf(i)
    requires SameSizes(i, j) && NextOf(i) <= NextOf(j)
    ensures Space(j) == Space(i) && Number(j) == Number(i)
  {
    TotalFrame(CostOf(i), CostOf(j), NextOf(i));
    TotalExtend(CostOf(j), NextOf(i), NextOf(j));
    TotalFrame(OneOf(i), OneOf(j), NextOf(i));
    TotalExtend(OneOf(j), NextOf(i), NextOf(j));
  }

  ghost predicate SameSizes(i: MetricImage, j: MetricImage) {
    forall n: nat :: (Rec(n) in i <==> Rec(n) in j) && (Bad(n) in i <==> Bad(n) in j)
                     && (Rec(n) in i ==> Size(i[Rec(n)]) == Size(j[Rec(n)])) && (Bad(n) in i ==> Size(i[Bad(n)]) == Size(j[Bad(n)]))
  }

  lemma RecordsBelow(c: Settings, i: MetricImage)
    requires Known(c, i)
    ensures forall n: nat :: Rec(n) in i || Bad(n) in i ==> n < NextOf(i)
  {
    forall n: nat | Rec(n) in i || Bad(n) in i
      ensures n < NextOf(i)
    {
      KnownBelow(c, i, n);
    }
  }

  lemma PutCutFiles(c: Settings, i: MetricImage, data: string, j: MetricImage)
    requires PutCut(i, c.version, c.scope, data, j)
    ensures j == Put(i, c.version, c.scope, data) || SameRecordFiles(i, j)
  {
  }

  lemma PutCutTotals(c: Settings, i: MetricImage, data: string, j: MetricImage)
    requires Clean(i, c.version, c.scope) && NextOf(i) < LAST && PutCut(i, c.version, c.scope, data, j)
    ensures j == Put(i, c.version, c.scope, data) || (Space(j) == Space(i) && Number(j) == Number(i))
  {
    if j != Put(i, c.version, c.scope, data) {
      PutCutSafe(i, c.version, c.scope, data, j);
      PutCutFiles(c, i, data, j);
      RecordsBelow(c, i);
      SameTotals(i, j);
    }
  }

  lemma StepRoom(c: Settings, i: MetricImage, e: Event, j: MetricImage)
    requires Known(c, i) && Room(c, i) && Step(0, c, i, e, j)
    ensures Room(c, j)
  {
    match e
    case Putting(data) =>
      PutCutTotals(c, i, data, j);
      if j == Put(i, c.version, c.scope, data) { PutSpace(c, i, data); }
    case Acking(n) => if j != i && Rec(n) in i { AckSpace(c, i, n); } else { assert j == i; }
    case Asiding(n) => if j != i { AsideSpace(i, n); }
    case Rotting(k) =>
      RotKnown(c, i, k, j);
      RecordsBelow(c, i);
      SameTotals(i, j);
    case Opening => assert Look(KeptKey, 0);
  }

  // ---------- whole runs ----------

  lemma StepSafe(c: Settings, i: MetricImage, e: Event, j: MetricImage)
    requires Openable(c, i) && Steps(c, i, e, j)
    ensures Openable(c, j) && Atomic(Logical(i), e, Logical(j))
  {
    assert Look(MetricsKey, 0);
    StepAtomic(c, i, e, j);
    StepRoom(c, i, e, j);
  }

  lemma {:induction false} RunOpenable(c: Settings, images: seq<MetricImage>, events: seq<Event>, k: nat)
    requires Chain(c, images, events) && k <= |events|
    ensures Openable(c, images[k])
  {
    if k > 0 {
      RunOpenable(c, images, events, k - 1);
      StepSafe(c, images[k - 1], events[k - 1], images[k]);
    }
  }

  /** Along a run every image is known and within budget, and every event is atomic. */
  lemma RunSafe(c: Settings, images: seq<MetricImage>, events: seq<Event>, k: nat)
    requires Chain(c, images, events) && k <= |events|
    ensures Known(c, images[k]) && Room(c, images[k])
    ensures k < |events| ==> Atomic(Logical(images[k]), events[k], Logical(images[k + 1]))
  {
    RunOpenable(c, images, events, k);
    if k < |events| {
      StepSafe(c, images[k], events[k], images[k + 1]);
    }
    assert Look(MetricsKey, 0);
  }

  /** One operation keeps every record it does not name. */
  lemma AtomicKeeps(q: Fifo, e: Event, r: Fifo, n: nat)
    requires Atomic(q, e, r) && n in q.recs && n < q.next && e != Acking(n) && e != Rotting(Rec(n))
    ensures n in r.recs && r.recs[n] == q.recs[n] && n < r.next
  {
  }

  lemma ChainKeeps(c: Settings, images: seq<MetricImage>, events: seq<Event>, k: nat, n: nat)
    requires Chain(c, images, events) && k < |events| && events[k] != Acking(n) && events[k] != Rotting(Rec(n))
    ensures var q, r := Logical(images[k]), Logical(images[k + 1]);
            n in q.recs && n < q.next ==> n in r.recs && r.recs[n] == q.recs[n] && n < r.next
  {
    RunOpenable(c, images, events, k);
    StepSafe(c, images[k], events[k], images[k + 1]);
    if n in Logical(images[k]).recs && n < Logical(images[k]).next {
      AtomicKeeps(Logical(images[k]), events[k], Logical(images[k + 1]), n);
    }
  }

  /** Every record stays, bytes and all, until it is acknowledged or rots. */
  lemma {:induction false} RecordSurvives(c: Settings, images: seq<MetricImage>, events: seq<Event>, a: nat, b: nat, n: nat)
    requires Chain(c, images, events) && a <= b <= |events|
    requires forall k :: a <= k < b ==> events[k] != Acking(n) && events[k] != Rotting(Rec(n))
    requires n in Logical(images[a]).recs && n < Logical(images[a]).next
    ensures n in Logical(images[b]).recs && Logical(images[b]).recs[n] == Logical(images[a]).recs[n]
    ensures n < Logical(images[b]).next
    decreases b
  {
    if a < b {
      RecordSurvives(c, images, events, a, b - 1, n);
      ChainKeeps(c, images, events, b - 1, n);
    }
  }

  lemma StepGrows(c: Settings, i: MetricImage, e: Event, j: MetricImage)
    requires Openable(c, i) && Steps(c, i, e, j)
    ensures NextOf(i) <= NextOf(j)
  {
    StepSafe(c, i, e, j);
    assert Logical(i).next == NextOf(i) && Logical(j).next == NextOf(j);
  }

  lemma ChainGrows(c: Settings, images: seq<MetricImage>, events: seq<Event>, k: nat)
    requires Chain(c, images, events) && k < |events|
    ensures NextOf(images[k]) <= NextOf(images[k + 1])
  {
    RunOpenable(c, images, events, k);
    StepGrows(c, images[k], events[k], images[k + 1]);
  }

  lemma {:induction false} NextGrows(c: Settings, images: seq<MetricImage>, events: seq<Event>, a: nat, b: nat)
    requires Chain(c, images, events) && a <= b <= |events|
    ensures NextOf(images[a]) <= NextOf(images[b])
    decreases b
  {
    if a < b {
      NextGrows(c, images, events, a, b - 1);
      ChainGrows(c, images, events, b - 1);
    }
  }

  /** A receipt that was returned is never issued again, across any crashes, openings and rotten copies. */
  lemma ReceiptsIncrease(c: Settings, images: seq<MetricImage>, events: seq<Event>, a: nat, b: nat)
    requires Chain(c, images, events) && a < b < |events| && events[a].Putting? && events[b].Putting?
    requires images[a + 1] == Put(images[a], c.version, c.scope, events[a].data)
    ensures NextOf(images[a]) < NextOf(images[b])
  {
    RunOpenable(c, images, events, a);
    assert Steps(c, images[a], events[a], images[a + 1]);
    PutReceipt(c, images[a], events[a], images[a + 1]);
    NextGrows(c, images, events, a + 1, b);
  }

  lemma PutReceipt(c: Settings, i: MetricImage, e: Event, j: MetricImage)
    requires Steps(c, i, e, j) && e.Putting? && j == Put(i, c.version, c.scope, e.data)
    ensures NextOf(j) == NextOf(i) + 1
  {
    assert Look(MetricsKey, 0);
    PlacedSafe(i, c.version, c.scope, e.data);
  }

  /** A record longer than the reading bound is stored, and is then too long for any opening. */
  lemma PutReadableIff(c: Settings, i: MetricImage, data: string)
    requires Clean(i, c.version, c.scope) && NextOf(i) < LAST
    ensures RecordsReadable(Put(i, c.version, c.scope, data)) <==> RecordsReadable(i) && RecordSize(data) <= READ_LIMIT
  {
    var j := Put(i, c.version, c.scope, data);
    NextFree(i, c.version, c.scope);
    assert j[Rec(NextOf(i))] == Whole(Payload(data));
    assert forall k :: k in i && Consulted(k) ==> k in j && j[k] == i[k];
  }
}
