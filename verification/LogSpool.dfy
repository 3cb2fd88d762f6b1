/**
The logs spool directory: which images a crash can leave, which queue each image
denotes, and what opening it does.
*/
module LogSpool {
  import opened Storage
  import opened LogQueue
  import opened SpoolAccounts

  datatype LogName =
    | ManifestJson
    | ManifestPending
    | Pending
    | ReplacePending
    | Lrec(n: nat)
    | Bad(n: nat)
    | Stray(name: string)

  datatype LogFile = Manifest(scope: string, next: nat) | Record(rec: LogRecord)

  type LogImage = map<LogName, File<LogFile>>

  const READ_LIMIT: nat := 5 * 0x10_0000

  /** Bytes of an encoded record: members, two 64-digit hashes, and true or false. */
  function RecordSize(r: LogRecord): nat { (if r.ready then 193 else 194) + |r.payload| }

  function Size(f: File<LogFile>): nat {
    match f
    case Torn(size) => size
    case Whole(Record(r)) => RecordSize(r)
    case Whole(Manifest(_, _)) => 0
  }

  predicate IsRecord(f: File<LogFile>) { f.Whole? && f.value.Record? }

  predicate IsManifest(f: File<LogFile>, scope: string) {
    f.Whole? && f.value.Manifest? && f.value.scope == scope && 1 <= f.value.next < SEQ_LIMIT
  }

  // ---------- the queue an image denotes ----------

  ghost predicate AreRecords(i: LogImage, r: map<nat, LogRecord>) {
    && (forall n: nat :: n in r <==> Lrec(n) in i && IsRecord(i[Lrec(n)]))
    && (forall n: nat :: n in r ==> Lrec(n) in i && IsRecord(i[Lrec(n)]) && r[n] == i[Lrec(n)].value.rec)
  }

  /** The record files that decode. */
  ghost function Records(i: LogImage): (r: map<nat, LogRecord>)
    ensures AreRecords(i, r)
  {
    var built: map<nat, LogRecord> := map k | k in i && k.Lrec? && IsRecord(i[k]) :: k.n := i[k].value.rec;
    assert AreRecords(i, built);
    var r :| AreRecords(i, r);
    r
  }

  /** The next sequence according to the current control file. */
  function Current(i: LogImage): nat {
    if ManifestJson in i && i[ManifestJson].Whole? && i[ManifestJson].value.Manifest?
    then i[ManifestJson].value.next else 1
  }

  function NextOf(i: LogImage): nat {
    if ManifestPending in i && i[ManifestPending].Whole? && i[ManifestPending].value.Manifest?
    then i[ManifestPending].value.next else Current(i)
  }

  ghost function Admitted(i: LogImage): map<nat, LogRecord> {
    if Pending in i && IsRecord(i[Pending]) && Current(i) > 1
    then Records(i)[Current(i) - 1 := i[Pending].value.rec] else Records(i)
  }

  /**
  The queue the image denotes.  A complete stage counts as done, because opening
  finishes it; a torn stage counts as not begun.
  */
  ghost function Logical(i: LogImage): Queue {
    var q := Queue(NextOf(i), Admitted(i));
    if ReplacePending in i && IsRecord(i[ReplacePending]) then Activate(q, i[ReplacePending].value.rec.id) else q
  }

  // ---------- the images crashes can leave ----------

  ghost predicate Distinct(i: LogImage) {
    forall m, n :: m in Records(i) && n in Records(i) && Records(i)[m].id == Records(i)[n].id ==> m == n
  }

  ghost predicate ControlOk(i: LogImage, scope: string) {
    && (ManifestJson !in i ==> forall k :: k in i ==> k == ManifestPending)
    && (ManifestJson in i ==> IsManifest(i[ManifestJson], scope))
    && (ManifestPending in i && i[ManifestPending].Whole? ==>
          && IsManifest(i[ManifestPending], scope)
          && i[ManifestPending].value.next == if ManifestJson in i then Current(i) + 1 else 1)
  }

  ghost predicate RecordsOk(i: LogImage) {
    && (forall k :: k in i ==> !k.Stray?)
    && (forall n: nat :: Lrec(n) in i ==> 1 <= n < Current(i) && (i[Lrec(n)].Whole? ==> IsRecord(i[Lrec(n)])))
    && Distinct(i)
  }

  /** A complete activation names the record that has its identity. */
  ghost predicate Names(i: LogImage, n: nat) {
    && ReplacePending in i && IsRecord(i[ReplacePending])
    && n in Records(i) && Records(i)[n].id == i[ReplacePending].value.rec.id
  }

  /** A complete activation whose record no longer decodes. */
  ghost predicate Orphaned(i: LogImage) {
    ReplacePending in i && IsRecord(i[ReplacePending]) && forall n: nat :: !Names(i, n)
  }

  ghost predicate StagesOk(i: LogImage) {
    && (Pending in i ==> ManifestPending !in i && Current(i) > 1 && Lrec(Current(i) - 1) !in i)
    && (Pending in i && i[Pending].Whole? ==>
          && IsRecord(i[Pending]) && !i[Pending].value.rec.ready
          && forall n :: n in Records(i) ==> Records(i)[n].id != i[Pending].value.rec.id)
    && (ReplacePending in i && i[ReplacePending].Whole? ==>
          && IsRecord(i[ReplacePending]) && i[ReplacePending].value.rec.ready
          && (forall n: nat :: Names(i, n) ==> Records(i)[n] == i[ReplacePending].value.rec.(ready := false))
          && (Pending in i && IsRecord(i[Pending]) ==> i[Pending].value.rec.id != i[ReplacePending].value.rec.id))
  }

  /** Holds of every image any run of the spool leaves, with or without crashes. */
  ghost predicate Inv(i: LogImage, scope: string) {
    ControlOk(i, scope) && RecordsOk(i) && StagesOk(i)
  }

  predicate NoStages(i: LogImage) {
    ManifestPending !in i && Pending !in i && ReplacePending !in i
  }

  /** An open spool at rest. */
  ghost predicate Clean(i: LogImage, scope: string) {
    Inv(i, scope) && NoStages(i) && ManifestJson in i
  }

  lemma LogicalSound(i: LogImage, scope: string)
    requires Inv(i, scope)
    ensures Sound(Logical(i))
    ensures forall n :: n in Logical(i).recs ==> n in Admitted(i) && Logical(i).recs[n].id == Admitted(i)[n].id
  {
  }

  lemma CleanLogical(i: LogImage, scope: string)
    requires Clean(i, scope)
    ensures Logical(i) == Queue(Current(i), Records(i)) && Sound(Logical(i))
  {
    LogicalSound(i, scope);
  }

  // ---------- operations cut anywhere ----------

  /** The image after the next sequence has been reserved. */
  function Reserved(i: LogImage, scope: string, next: nat): LogImage {
    Replaced(i, ManifestPending, ManifestJson, Manifest(scope, next))
  }

  /** Sequences wrap silently at 64 bits. */
  function Succ(n: nat): nat { if n + 1 == SEQ_LIMIT then 0 else n + 1 }

  /** PutAdmission, complete. */
  function Put(i: LogImage, scope: string, r: LogRecord): LogImage {
    Replaced(Reserved(i, scope, Succ(Current(i))), Pending, Lrec(Current(i)), Record(r))
  }

  ghost predicate PutCut(i: LogImage, scope: string, r: LogRecord, j: LogImage) {
    || ReplaceCut(i, ManifestPending, ManifestJson, Manifest(scope, Succ(Current(i))), j)
    || ReplaceCut(Reserved(i, scope, Succ(Current(i))), Pending, Lrec(Current(i)), Record(r), j)
  }

  ghost predicate ActivateCut(i: LogImage, n: nat, j: LogImage)
    requires n in Records(i)
  {
    ReplaceCut(i, ReplacePending, Lrec(n), Record(Records(i)[n].(ready := true)), j)
  }

  ghost predicate AckCut(i: LogImage, n: nat, j: LogImage) {
    j == i || j == i - {Lrec(n)}
  }

  /** A record rots: same size, no longer decodes. */
  ghost predicate Rots(i: LogImage, n: nat, j: LogImage) {
    Lrec(n) in i && j == i[Lrec(n) := Torn(Size(i[Lrec(n)]))]
  }

  /** Records depend on the record files only. */
  lemma SameRecords(i: LogImage, j: LogImage)
    requires forall n: nat :: Lrec(n) in i <==> Lrec(n) in j
    requires forall n: nat :: Lrec(n) in i ==> i[Lrec(n)] == j[Lrec(n)]
    ensures Records(j) == Records(i)
  {
  }

  lemma ReserveCutSafe(i: LogImage, scope: string, j: LogImage)
    requires Clean(i, scope) && Current(i) + 1 < SEQ_LIMIT
    requires ReplaceCut(i, ManifestPending, ManifestJson, Manifest(scope, Current(i) + 1), j)
    ensures Inv(j, scope)
    ensures Logical(j) == Logical(i) || Logical(j) == Reserve(Logical(i))
    ensures j == Reserved(i, scope, Current(i) + 1) ==> Clean(j, scope) && Logical(j) == Reserve(Logical(i))
  {
    SameRecords(i, j);
    assert RecordsOk(j);
    assert ControlOk(j, scope);
    assert StagesOk(j);
  }

  lemma FillCutSafe(i: LogImage, scope: string, r: LogRecord, j: LogImage)
    requires Clean(i, scope) && Current(i) > 1 && Lrec(Current(i) - 1) !in i
    requires !r.ready && !Holds(Logical(i), r.id)
    requires StageCut(i, Pending, Record(r), j)
    ensures Inv(j, scope)
    ensures Logical(j) == Logical(i) || Logical(j) == Logical(i).(recs := Logical(i).recs[Current(i) - 1 := r])
  {
    CleanLogical(i, scope);
    SameRecords(i, j);
    assert RecordsOk(j);
    assert ControlOk(j, scope);
    assert StagesOk(j);
  }

  lemma FillDone(i: LogImage, scope: string, r: LogRecord)
    requires Clean(i, scope) && Current(i) > 1 && Lrec(Current(i) - 1) !in i
    requires !r.ready && !Holds(Logical(i), r.id)
    ensures var j := Replaced(i, Pending, Lrec(Current(i) - 1), Record(r));
            Clean(j, scope) && Logical(j) == Logical(i).(recs := Logical(i).recs[Current(i) - 1 := r])
  {
    CleanLogical(i, scope);
    var j := Replaced(i, Pending, Lrec(Current(i) - 1), Record(r));
    assert Records(j) == Records(i)[Current(i) - 1 := r];
    assert RecordsOk(j);
  }

  /** What a reservation leaves: the number is free, and the queue holds what it held. */
  lemma ReservedFacts(i: LogImage, scope: string, id: Id)
    requires Clean(i, scope) && Current(i) + 1 < SEQ_LIMIT && !Holds(Logical(i), id)
    ensures var k := Reserved(i, scope, Current(i) + 1);
            && Clean(k, scope) && Current(k) == Current(i) + 1 && Lrec(Current(i)) !in k
            && Logical(k) == Reserve(Logical(i)) && !Holds(Logical(k), id)
  {
    ReserveCutSafe(i, scope, Reserved(i, scope, Current(i) + 1));
  }

  lemma PutStagedSafe(i: LogImage, scope: string, r: LogRecord, j: LogImage)
    requires Clean(i, scope) && Current(i) + 1 < SEQ_LIMIT && !r.ready && !Holds(Logical(i), r.id)
    requires StageCut(Reserved(i, scope, Current(i) + 1), Pending, Record(r), j)
    ensures Inv(j, scope)
    ensures Logical(j) == Reserve(Logical(i)) || Logical(j) == Admit(Logical(i), r.id, r.payload)
  {
    CleanLogical(i, scope);
    ReservedFacts(i, scope, r.id);
    FillCutSafe(Reserved(i, scope, Current(i) + 1), scope, r, j);
  }

  lemma PutPlaced(i: LogImage, scope: string, r: LogRecord)
    requires Clean(i, scope) && Current(i) + 1 < SEQ_LIMIT && !r.ready && !Holds(Logical(i), r.id)
    ensures Clean(Put(i, scope, r), scope) && Logical(Put(i, scope, r)) == Admit(Logical(i), r.id, r.payload)
  {
    assert Succ(Current(i)) == Current(i) + 1;
    CleanLogical(i, scope);
    ReservedFacts(i, scope, r.id);
    FillDone(Reserved(i, scope, Current(i) + 1), scope, r);
  }

  lemma PutCutCases(i: LogImage, scope: string, r: LogRecord, j: LogImage)
    requires Clean(i, scope) && Current(i) + 1 < SEQ_LIMIT && PutCut(i, scope, r, j)
    ensures || ReplaceCut(i, ManifestPending, ManifestJson, Manifest(scope, Current(i) + 1), j)
            || StageCut(Reserved(i, scope, Current(i) + 1), Pending, Record(r), j)
            || j == Put(i, scope, r)
  {
    assert Succ(Current(i)) == Current(i) + 1;
  }

  lemma PutCutLogical(i: LogImage, scope: string, r: LogRecord, j: LogImage)
    requires Clean(i, scope) && Current(i) + 1 < SEQ_LIMIT
    requires !r.ready && !Holds(Logical(i), r.id) && PutCut(i, scope, r, j)
    ensures Inv(j, scope)
    ensures || Logical(j) == Logical(i)
            || Logical(j) == Reserve(Logical(i))
            || Logical(j) == Admit(Logical(i), r.id, r.payload)
  {
    PutCutCases(i, scope, r, j);
    if j == Put(i, scope, r) {
      PutPlaced(i, scope, r);
    } else if ReplaceCut(i, ManifestPending, ManifestJson, Manifest(scope, Current(i) + 1), j) {
      ReserveCutSafe(i, scope, j);
    } else {
      PutStagedSafe(i, scope, r, j);
    }
  }

  /** An admission cut anywhere has happened, has only used up its number, or has not begun. */
  lemma PutCutSafe(i: LogImage, scope: string, r: LogRecord, j: LogImage)
    requires Clean(i, scope) && Current(i) + 1 < SEQ_LIMIT
    requires !r.ready && !Holds(Logical(i), r.id) && PutCut(i, scope, r, j)
    ensures Inv(j, scope)
    ensures || Logical(j) == Logical(i)
            || Logical(j) == Reserve(Logical(i))
            || Logical(j) == Admit(Logical(i), r.id, r.payload)
    ensures j == Put(i, scope, r) ==> Clean(j, scope) && Logical(j) == Admit(Logical(i), r.id, r.payload)
  {
    PutCutLogical(i, scope, r, j);
    if j == Put(i, scope, r) { PutPlaced(i, scope, r); }
  }

  lemma ActivateFiles(i: LogImage, n: nat)
    requires n in Records(i) && ReplacePending !in i
    ensures var j := Replaced(i, ReplacePending, Lrec(n), Record(Records(i)[n].(ready := true)));
            Records(j) == Records(i)[n := Records(i)[n].(ready := true)] && j.Keys == i.Keys
  {
  }

  lemma ActivateDoneInv(i: LogImage, scope: string, n: nat)
    requires Inv(i, scope) && ReplacePending !in i && n in Records(i)
    ensures var j := Replaced(i, ReplacePending, Lrec(n), Record(Records(i)[n].(ready := true)));
            Inv(j, scope) && Records(j) == Records(i)[n := Records(i)[n].(ready := true)] && j.Keys == i.Keys
  {
    var j := Replaced(i, ReplacePending, Lrec(n), Record(Records(i)[n].(ready := true)));
    ActivateFiles(i, n);
    assert Distinct(j);
    assert RecordsOk(j);
  }

  lemma ActivateDone(i: LogImage, scope: string, n: nat)
    requires Inv(i, scope) && ReplacePending !in i && n in Records(i)
    ensures var j := Replaced(i, ReplacePending, Lrec(n), Record(Records(i)[n].(ready := true)));
            && Inv(j, scope) && (Clean(i, scope) ==> Clean(j, scope)) && !Orphaned(j)
            && Logical(j) == Activate(Logical(i), Records(i)[n].id)
  {
    var j := Replaced(i, ReplacePending, Lrec(n), Record(Records(i)[n].(ready := true)));
    ActivateDoneInv(i, scope, n);
    ActivateAdmitted(i, scope, n);
    assert Logical(j) == Queue(NextOf(i), Admitted(j));
  }

  lemma ActivateAdmitted(i: LogImage, scope: string, n: nat)
    requires Inv(i, scope) && ReplacePending !in i && n in Records(i)
    ensures var j := Replaced(i, ReplacePending, Lrec(n), Record(Records(i)[n].(ready := true)));
            Queue(NextOf(i), Admitted(j)) == Activate(Logical(i), Records(i)[n].id)
  {
    LogicalSound(i, scope);
    assert n in Logical(i).recs && Logical(i).recs[n] == Records(i)[n];
    ActivateNumber(Logical(i), Records(i)[n].id, n);
    ActivatedRecords(i, scope, n);
  }

  lemma ActivatedRecords(i: LogImage, scope: string, n: nat)
    requires Inv(i, scope) && ReplacePending !in i && n in Records(i)
    ensures var j := Replaced(i, ReplacePending, Lrec(n), Record(Records(i)[n].(ready := true)));
            Admitted(j) == Admitted(i)[n := Records(i)[n].(ready := true)] && Admitted(i)[n] == Records(i)[n]
  {
    ActivateDoneInv(i, scope, n);
    assert Pending in i && Current(i) > 1 ==> n != Current(i) - 1;
  }

  lemma ActivateStaged(i: LogImage, scope: string, n: nat, j: LogImage)
    requires Inv(i, scope) && ReplacePending !in i && n in Records(i) && !Records(i)[n].ready
    requires StageCut(i, ReplacePending, Record(Records(i)[n].(ready := true)), j)
    ensures Inv(j, scope) && !Orphaned(j)
    ensures Logical(j) == Logical(i) || Logical(j) == Activate(Logical(i), Records(i)[n].id)
  {
    SameRecords(i, j);
    assert RecordsOk(j);
    assert ControlOk(j, scope);
    assert ReplacePending in j && IsRecord(j[ReplacePending]) ==> Names(j, n);
    assert Records(j)[n] == Records(i)[n].(ready := true).(ready := false);
    assert StagesOk(j);
  }

  /**
  An activation cut anywhere has happened or has not begun.  The spool need not be at
  rest: an admission that failed half-way does not keep other streams from activating.
  */
  lemma ActivateCutSafe(i: LogImage, scope: string, n: nat, j: LogImage)
    requires Inv(i, scope) && ReplacePending !in i && n in Records(i) && !Records(i)[n].ready && ActivateCut(i, n, j)
    ensures Inv(j, scope) && !Orphaned(j)
    ensures Logical(j) == Logical(i) || Logical(j) == Activate(Logical(i), Records(i)[n].id)
  {
    if StageCut(i, ReplacePending, Record(Records(i)[n].(ready := true)), j) {
      ActivateStaged(i, scope, n, j);
    } else {
      ActivateDone(i, scope, n);
    }
  }

  /** An acknowledgement cut anywhere has happened or has not begun. */
  lemma AckCutSafe(i: LogImage, scope: string, n: nat, j: LogImage)
    requires Clean(i, scope) && AckCut(i, n, j)
    ensures Clean(j, scope)
    ensures Logical(j) == Logical(i) || Logical(j) == Without(Logical(i), n)
    ensures j == i - {Lrec(n)} ==> Logical(j) == Without(Logical(i), n)
  {
    CleanLogical(i, scope);
    if j == i - {Lrec(n)} {
      assert Records(j) == Records(i) - {n};
    }
  }

  lemma RotRecords(i: LogImage, n: nat, j: LogImage)
    requires Rots(i, n, j)
    ensures Records(j) == Records(i) - {n}
  {
  }

  lemma RotInv(i: LogImage, scope: string, n: nat, j: LogImage)
    requires Inv(i, scope) && Rots(i, n, j)
    ensures Inv(j, scope) && (Clean(i, scope) ==> Clean(j, scope))
  {
    RotRecords(i, n, j);
    assert RecordsOk(j);
    assert forall m: nat :: Names(j, m) ==> Names(i, m);
    assert StagesOk(j);
  }

  lemma RotLogical(i: LogImage, scope: string, n: nat, j: LogImage)
    requires Inv(i, scope) && Rots(i, n, j)
    ensures Logical(j) == Without(Logical(i), n)
  {
    RotRecords(i, n, j);
    assert Admitted(j) == Admitted(i) - {n};
    if ReplacePending in i && IsRecord(i[ReplacePending]) {
      WithoutActivate(Queue(NextOf(i), Admitted(i)), i[ReplacePending].value.rec.id, n);
    }
  }

  lemma WithoutActivate(q: Queue, id: Id, n: nat)
    ensures Activate(Without(q, n), id) == Without(Activate(q, id), n)
  {
    assert Activate(Without(q, n), id).recs == Without(Activate(q, id), n).recs;
  }

  /**
  Rot at any moment loses the rotten record and no other.  It orphans a complete
  activation exactly when that names the record.
  */
  lemma RotSafe(i: LogImage, scope: string, n: nat, j: LogImage)
    requires Inv(i, scope) && Rots(i, n, j)
    ensures Inv(j, scope) && (Clean(i, scope) ==> Clean(j, scope))
    ensures Logical(j) == Without(Logical(i), n)
    ensures Orphaned(j) <==> Orphaned(i) || Names(i, n)
  {
    RotInv(i, scope, n, j);
    RotLogical(i, scope, n, j);
    RotRecords(i, n, j);
    forall m: nat
      ensures Names(j, m) <==> Names(i, m) && m != n
    {
    }
    if Names(i, n) {
      assert forall m: nat :: Names(i, m) ==> Records(i)[m].id == Records(i)[n].id;
    }
  }
}
