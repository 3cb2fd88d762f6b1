/**
The metrics spool directory: two control copies, numbered records, and the images
that runs of the spool can leave.
*/
module MetricSpool {
  import opened Storage
  import opened SpoolAccounts

  datatype MetricName =
    | Json
    | Backup
    | Pending
    | Rec(n: nat)
    | Bad(n: nat)
    | Journal
    | JsonNext
    | BackupNext
    | JournalNext
    | Stray(name: string)

  datatype MetricFile =
    | Manifest(version: nat, scope: string, next: nat)
    | Move(oldScope: string, newScope: string, next: nat)
    | Payload(data: string)

  type MetricImage = map<MetricName, File<MetricFile>>

  /** The last sequence is never given out. */
  const LAST: nat := 0xFFFF_FFFF_FFFF_FFFF

  const READ_LIMIT: nat := 5 * 0x10_0000

  /** Version, hash and payload members around the payload. */
  function RecordSize(data: string): nat { 98 + |data| }

  function Size(f: File<MetricFile>): nat {
    match f
    case Torn(size) => size
    case Whole(Payload(data)) => RecordSize(data)
    case Whole(_) => 0
  }

  predicate IsPayload(f: File<MetricFile>) { f.Whole? && f.value.Payload? }

  predicate IsManifest(f: File<MetricFile>, version: nat, scope: string) {
    f.Whole? && f.value.Manifest? && f.value.version == version && f.value.scope == scope && 1 <= f.value.next <= LAST
  }

  // ---------- the queue an image denotes ----------

  datatype Fifo = Fifo(next: nat, recs: map<nat, string>)

  ghost predicate AreRecords(i: MetricImage, r: map<nat, string>) {
    && (forall n: nat :: n in r <==> Rec(n) in i && IsPayload(i[Rec(n)]))
    && (forall n: nat :: n in r ==> Rec(n) in i && IsPayload(i[Rec(n)]) && r[n] == i[Rec(n)].value.data)
  }

  /** The record files that decode. */
  ghost function Records(i: MetricImage): (r: map<nat, string>)
    ensures AreRecords(i, r)
  {
    var built: map<nat, string> := map k | k in i && k.Rec? && IsPayload(i[k]) :: k.n := i[k].value.data;
    assert AreRecords(i, built);
    var r :| AreRecords(i, r);
    r
  }

  predicate Loads(i: MetricImage, k: MetricName) { k in i && i[k].Whole? && i[k].value.Manifest? }

  /** The next sequence by the copy that would be loaded. */
  function NextOf(i: MetricImage): nat {
    if Loads(i, Json) then i[Json].value.next
    else if Loads(i, Backup) then i[Backup].value.next
    else 1
  }

  ghost function Logical(i: MetricImage): Fifo { Fifo(NextOf(i), Records(i)) }

  function Append(q: Fifo, data: string): Fifo { Fifo(q.next + 1, q.recs[q.next := data]) }

  function Reserve(q: Fifo): Fifo { q.(next := q.next + 1) }

  function Without(q: Fifo, n: nat): Fifo { q.(recs := q.recs - {n}) }

  // ---------- the images runs can leave ----------

  /**
  The backup is written first, so it is never behind, and at most one ahead; either
  copy may have rotted while the other is whole.
  */
  ghost predicate ControlOk(i: MetricImage, version: nat, scope: string) {
    && (Json in i ==> Backup in i && (i[Json].Whole? || i[Backup].Whole?))
    && (Json in i && i[Json].Whole? ==> IsManifest(i[Json], version, scope))
    && (Backup in i && i[Backup].Whole? ==> IsManifest(i[Backup], version, scope))
    && (Loads(i, Json) && Loads(i, Backup) ==>
          i[Json].value.next <= i[Backup].value.next <= i[Json].value.next + 1)
    && (Json !in i ==> forall k :: k in i ==> k == Pending || (k == Backup && IsManifest(i[k], version, scope)))
  }

  ghost predicate Below(i: MetricImage, n: nat) {
    && 1 <= n
    && (Loads(i, Json) ==> n < i[Json].value.next)
    && (Loads(i, Backup) ==> n < i[Backup].value.next)
  }

  ghost predicate RecordsOk(i: MetricImage) {
    && (forall k :: k in i ==> k.Json? || k.Backup? || k.Pending? || k.Rec? || k.Bad?)
    && (forall n: nat :: Rec(n) in i ==> Below(i, n) && Bad(n) !in i && (i[Rec(n)].Whole? ==> IsPayload(i[Rec(n)])))
    && (forall n: nat :: Bad(n) in i ==> Below(i, n))
  }

  /** Holds of every image any run of the spool leaves, with or without crashes. */
  ghost predicate Inv(i: MetricImage, version: nat, scope: string) {
    ControlOk(i, version, scope) && RecordsOk(i)
  }

  /** An open spool at rest. */
  ghost predicate Clean(i: MetricImage, version: nat, scope: string) {
    Inv(i, version, scope) && Backup in i && Pending !in i
  }

  // ---------- operations cut anywhere ----------

  function Reserved1(i: MetricImage, m: MetricFile): MetricImage { Replaced(i, Pending, Backup, m) }

  function Reserved(i: MetricImage, m: MetricFile): MetricImage { Replaced(Reserved1(i, m), Pending, Json, m) }

  /** Put, complete: backup, control file, record. */
  function Put(i: MetricImage, version: nat, scope: string, data: string): MetricImage {
    var n := NextOf(i);
    Replaced(Reserved(i, Manifest(version, scope, n + 1)), Pending, Rec(n), Payload(data))
  }

  ghost predicate ReserveCut(i: MetricImage, m: MetricFile, j: MetricImage) {
    ReplaceCut(i, Pending, Backup, m, j) || ReplaceCut(Reserved1(i, m), Pending, Json, m, j)
  }

  ghost predicate PutCut(i: MetricImage, version: nat, scope: string, data: string, j: MetricImage) {
    var m := Manifest(version, scope, NextOf(i) + 1);
    || ReserveCut(i, m, j)
    || ReplaceCut(Reserved(i, m), Pending, Rec(NextOf(i)), Payload(data), j)
  }

  ghost predicate AckCut(i: MetricImage, n: nat, j: MetricImage) {
    j == i || j == i - {Rec(n)}
  }

  /** A record, or a control copy whose other copy is whole, no longer decodes. */
  ghost predicate Rots(i: MetricImage, k: MetricName, j: MetricImage) {
    && k in i && j == i[k := Torn(Size(i[k]))]
    && (k.Rec? || (k.Json? && Loads(i, Backup)) || (k.Backup? && Loads(i, Json)))
  }

  lemma SameRecords(i: MetricImage, j: MetricImage)
    requires forall n: nat :: Rec(n) in i <==> Rec(n) in j
    requires forall n: nat :: Rec(n) in i ==> i[Rec(n)] == j[Rec(n)]
    ensures Records(j) == Records(i)
  {
  }

  lemma StagedSafe(i: MetricImage, version: nat, scope: string, value: MetricFile, j: MetricImage)
    requires Inv(i, version, scope) && StageCut(i, Pending, value, j)
    ensures Inv(j, version, scope) && Logical(j) == Logical(i)
  {
    SameRecords(i, j);
    assert NextOf(j) == NextOf(i);
    assert forall n: nat :: Below(j, n) <==> Below(i, n);
  }

  /** The backup copy replaced. */
  lemma Reserved1Safe(i: MetricImage, version: nat, scope: string)
    requires Clean(i, version, scope) && NextOf(i) < LAST
    ensures var j := Reserved1(i, Manifest(version, scope, NextOf(i) + 1));
            && Clean(j, version, scope)
            && (Logical(j) == Logical(i) || Logical(j) == Reserve(Logical(i)))
            && (Loads(j, Json) ==> j[Json].value.next == NextOf(i))
  {
    var j := Reserved1(i, Manifest(version, scope, NextOf(i) + 1));
    SameRecords(i, j);
    assert forall n: nat :: Below(i, n) ==> Below(j, n);
  }

  /** Both copies replaced. */
  lemma ReservedSafe(i: MetricImage, version: nat, scope: string)
    requires Clean(i, version, scope) && NextOf(i) < LAST
    ensures var j := Reserved(i, Manifest(version, scope, NextOf(i) + 1));
            Clean(j, version, scope) && Logical(j) == Reserve(Logical(i)) && Loads(j, Json) && Loads(j, Backup)
            && j[Json].value.next == j[Backup].value.next == NextOf(i) + 1
  {
    Reserved1Safe(i, version, scope);
    var m := Manifest(version, scope, NextOf(i) + 1);
    var j := Reserved(i, m);
    SameRecords(i, j);
    assert forall n: nat :: Below(i, n) ==> Below(j, n);
  }

  lemma RecordPlaced(k: MetricImage, version: nat, scope: string, n: nat, data: string)
    requires Clean(k, version, scope) && Json in k && Below(k, n) && Rec(n) !in k && Bad(n) !in k
    ensures var j := Replaced(k, Pending, Rec(n), Payload(data));
            Clean(j, version, scope) && Logical(j) == Fifo(NextOf(k), Records(k)[n := data])
  {
    var j := Replaced(k, Pending, Rec(n), Payload(data));
    assert Records(j) == Records(k)[n := data];
    assert forall m: nat :: Below(k, m) <==> Below(j, m);
  }

  /** The next number has no file yet. */
  lemma NextFree(i: MetricImage, version: nat, scope: string)
    requires Clean(i, version, scope)
    ensures 1 <= NextOf(i) && Rec(NextOf(i)) !in i && Bad(NextOf(i)) !in i
  {
    assert Loads(i, Json) || Loads(i, Backup);
  }

  lemma PlacedSafe(i: MetricImage, version: nat, scope: string, data: string)
    requires Clean(i, version, scope) && NextOf(i) < LAST
    ensures var j := Put(i, version, scope, data);
            Clean(j, version, scope) && Logical(j) == Append(Logical(i), data)
  {
    NextFree(i, version, scope);
    ReservedSafe(i, version, scope);
    RecordPlaced(Reserved(i, Manifest(version, scope, NextOf(i) + 1)), version, scope, NextOf(i), data);
  }

  /** A Put cut anywhere has happened, has only used up its number, or has not begun. */
  lemma PutCutSafe(i: MetricImage, version: nat, scope: string, data: string, j: MetricImage)
    requires Clean(i, version, scope) && NextOf(i) < LAST && PutCut(i, version, scope, data, j)
    ensures Inv(j, version, scope)
    ensures Logical(j) == Logical(i) || Logical(j) == Reserve(Logical(i)) || Logical(j) == Append(Logical(i), data)
    ensures j == Put(i, version, scope, data) ==> Clean(j, version, scope) && Logical(j) == Append(Logical(i), data)
  {
    var m := Manifest(version, scope, NextOf(i) + 1);
    Reserved1Safe(i, version, scope);
    ReservedSafe(i, version, scope);
    PlacedSafe(i, version, scope, data);
    if StageCut(i, Pending, m, j) {
      StagedSafe(i, version, scope, m, j);
    } else if StageCut(Reserved1(i, m), Pending, m, j) {
      StagedSafe(Reserved1(i, m), version, scope, m, j);
    } else if StageCut(Reserved(i, m), Pending, Payload(data), j) {
      StagedSafe(Reserved(i, m), version, scope, Payload(data), j);
    }
  }

  /** An acknowledgement cut anywhere has happened or has not begun. */
  lemma AckCutSafe(i: MetricImage, version: nat, scope: string, n: nat, j: MetricImage)
    requires Clean(i, version, scope) && AckCut(i, n, j)
    ensures Clean(j, version, scope)
    ensures Logical(j) == if j == i then Logical(i) else Without(Logical(i), n)
  {
    if j != i {
      assert Records(j) == Records(i) - {n};
      assert forall m: nat :: Below(i, m) <==> Below(j, m);
    }
  }

  lemma RotRecord(i: MetricImage, version: nat, scope: string, n: nat, j: MetricImage)
    requires Inv(i, version, scope) && Rots(i, Rec(n), j)
    ensures Inv(j, version, scope) && (Clean(i, version, scope) ==> Clean(j, version, scope))
    ensures Logical(j) == Without(Logical(i), n)
  {
    assert Records(j) == Records(i) - {n};
    assert NextOf(j) == NextOf(i);
    assert forall m: nat :: Below(i, m) <==> Below(j, m);
  }

  lemma RotControl(i: MetricImage, version: nat, scope: string, k: MetricName, j: MetricImage)
    requires Inv(i, version, scope) && Rots(i, k, j) && !k.Rec?
    ensures Inv(j, version, scope) && (Clean(i, version, scope) ==> Clean(j, version, scope))
    ensures Records(j) == Records(i) && NextOf(i) <= NextOf(j) <= NextOf(i) + 1
  {
    SameRecords(i, j);
    assert forall m: nat :: Below(i, m) ==> Below(j, m);
  }

  /**
  Rot at any moment loses the rotten record and no other, and a rotten control copy
  loses none and reuses no number.
  */
  lemma RotSafe(i: MetricImage, version: nat, scope: string, k: MetricName, j: MetricImage)
    requires Inv(i, version, scope) && Rots(i, k, j)
    ensures Inv(j, version, scope) && (Clean(i, version, scope) ==> Clean(j, version, scope))
    ensures Logical(j).recs == if k.Rec? then Logical(i).recs - {k.n} else Logical(i).recs
    ensures Logical(i).next <= Logical(j).next <= Logical(i).next + 1
  {
    if k.Rec? {
      RotRecord(i, version, scope, k.n, j);
    } else {
      RotControl(i, version, scope, k, j);
    }
  }

  /** Keeping a rotten record aside changes nothing else. */
  lemma AsideSafe(i: MetricImage, version: nat, scope: string, n: nat)
    requires Inv(i, version, scope) && Rec(n) in i && !IsPayload(i[Rec(n)])
    ensures var j := Moved(i, Rec(n), Bad(n)); Inv(j, version, scope) && Logical(j) == Logical(i)
  {
    var j := Moved(i, Rec(n), Bad(n));
    assert Records(j) == Records(i);
    assert forall m: nat :: Below(i, m) <==> Below(j, m);
  }

  /** Whichever copy would be loaded, every record is below it. */
  lemma SequencesBelow(i: MetricImage, version: nat, scope: string, n: nat)
    requires Inv(i, version, scope) && (Rec(n) in i || Bad(n) in i)
    ensures 1 <= n < NextOf(i) <= LAST
  {
    assert Json in i;
  }
}
