/**
Opening the logs spool: what is finished, what is refused, and what it costs.
*/
module LogRecovery {
  import opened Keys
  import opened Storage
  import opened LogQueue
  import opened LogSpool
  import opened SpoolAccounts

  /** Settings of a spool. */
  datatype Limits = Limits(scope: string, maxBytes: int, maxItems: nat)

  datatype Verdict = Go(image: LogImage) | Refuse

  predicate Readable(f: File<LogFile>) { Size(f) <= READ_LIMIT }

  predicate SameRecord(a: LogRecord, b: LogRecord) { a.id == b.id && a.payload == b.payload }

  /** Finish an interrupted control replacement. */
  function RecoverManifest(i: LogImage, scope: string): Verdict {
    if ManifestPending !in i then Go(i)
    else if !IsManifest(i[ManifestPending], scope) then Refuse
    else if ManifestJson in i && !IsManifest(i[ManifestJson], scope) then Refuse
    else if ManifestJson in i && i[ManifestPending].value.next < i[ManifestJson].value.next then Refuse
    else Go(Moved(i, ManifestPending, ManifestJson))
  }

  /** Finish an interrupted admission under the sequence reserved for it. */
  function RecoverPending(i: LogImage): Verdict {
    if Pending !in i then Go(i)
    else if !Readable(i[Pending]) || !IsRecord(i[Pending]) || Current(i) <= 1 then Refuse
    else
      var target := Lrec(Current(i) - 1);
      if target !in i then Go(Moved(i, Pending, target))
      else if Readable(i[target]) && IsRecord(i[target]) && SameRecord(i[target].value.rec, i[Pending].value.rec)
      then Go(i - {Pending})
      else Refuse
  }

  // ---------- space ----------

  function SpaceOf(i: LogImage): nat -> nat {
    (n: nat) => if Lrec(n) in i then Charge(Size(i[Lrec(n)])) else 0
  }

  function OneEach(i: LogImage): nat -> nat {
    (n: nat) => if Lrec(n) in i then 1 else 0
  }

  /** Space taken by record files, and their number. */
  function Space(i: LogImage, upTo: nat): nat { Total(SpaceOf(i), upTo) }
  function Number(i: LogImage, upTo: nat): nat { Total(OneEach(i), upTo) }

  /** Space kept for control files and directory entries. */
  function Overhead(maxItems: nat): nat { 16384 + Charge(maxItems * 256) }

  /** A complete staged admission. */
  predicate Staged(i: LogImage) { Pending in i && IsRecord(i[Pending]) }

  /** What an image weighs and how many records it has, a complete staged admission included. */
  function Weight(i: LogImage): nat { Space(i, Current(i)) + if Staged(i) then Charge(Size(i[Pending])) else 0 }
  function Tally(i: LogImage): nat { Number(i, Current(i)) + if Staged(i) then 1 else 0 }

  /** The budget an image meets. */
  ghost predicate Room(i: LogImage, maxBytes: int, maxItems: nat) {
    Overhead(maxItems) + Weight(i) <= maxBytes && Tally(i) <= maxItems
  }

  // ---------- recovery neither loses nor invents ----------

  ghost predicate Same(i: LogImage, j: LogImage, scope: string) {
    Inv(j, scope) && Logical(j) == Logical(i) && (Orphaned(j) <==> Orphaned(i))
  }

  ghost predicate KeptBy(key: nat, c: Limits, i: LogImage, j: LogImage) {
    Same(i, j, c.scope) && Weight(j) <= Weight(i) && Tally(j) <= Tally(i)
  }

  /** Opening i may leave j: the same queue, no heavier. */
  ghost predicate Kept(c: Limits, i: LogImage, j: LogImage) {
    forall k: nat {:trigger Look(KeptKey, k)} :: Look(KeptKey, k) ==> KeptBy(k, c, i, j)
  }

  ghost predicate SameFile(i: LogImage, j: LogImage, k: LogName) {
    (k in i <==> k in j) && (k in i ==> i[k] == j[k])
  }

  /** An activation stays orphaned, or not, while identities stay. */
  lemma OrphanSame(i: LogImage, j: LogImage)
    requires SameFile(i, j, ReplacePending)
    requires ReplacePending in i && IsRecord(i[ReplacePending]) ==>
               forall n: nat :: Names(i, n) <==> Names(j, n)
    ensures Orphaned(j) <==> Orphaned(i)
  {
  }

  lemma ManifestRecovered(i: LogImage, scope: string)
    requires Inv(i, scope)
    ensures RecoverManifest(i, scope).Refuse? <==> ManifestPending in i && i[ManifestPending].Torn?
    ensures RecoverManifest(i, scope).Go? ==>
              var j := RecoverManifest(i, scope).image;
              Same(i, j, scope) && ManifestPending !in j && (ManifestPending in i ==> ManifestJson in j)
              && j == (if ManifestPending in i then Moved(i, ManifestPending, ManifestJson) else i)
  {
    if ManifestPending in i && i[ManifestPending].Whole? {
      var j := Moved(i, ManifestPending, ManifestJson);
      SameRecords(i, j);
      assert RecordsOk(j);
      OrphanSame(i, j);
    }
  }

  /** A directory holding control files only denotes an empty queue. */
  lemma ControlOnly(j: LogImage, scope: string)
    requires forall k :: k in j ==> k == ManifestPending || k == ManifestJson
    requires ControlOk(j, scope)
    ensures Inv(j, scope) && Logical(j) == Queue(NextOf(j), map[])
  {
    assert Records(j) == map[];
  }

  lemma NewDirectory(i: LogImage, scope: string)
    requires Inv(i, scope) && ManifestPending !in i && ManifestJson !in i
    ensures i == map[] && Logical(i) == Queue(1, map[])
  {
    ControlOnly(i, scope);
  }

  /** The first control file of a new directory, cut anywhere. */
  lemma FreshManifest(scope: string, j: LogImage)
    requires ReplaceCut(map[], ManifestPending, ManifestJson, Manifest(scope, 1), j)
    ensures Inv(j, scope) && Logical(j) == Queue(1, map[])
    ensures j == Replaced(map[], ManifestPending, ManifestJson, Manifest(scope, 1)) ==> Clean(j, scope)
  {
    if j != map[] && ManifestJson !in j {
      assert j.Keys == {ManifestPending};
    }
    ControlOnly(j, scope);
  }

  lemma PendingRecovered(i: LogImage, scope: string)
    requires Inv(i, scope) && ManifestPending !in i && ManifestJson in i
    requires Pending in i ==> Readable(i[Pending])
    ensures RecoverPending(i).Refuse? <==> Pending in i && i[Pending].Torn?
    ensures RecoverPending(i).Go? ==>
              var j := RecoverPending(i).image;
              Same(i, j, scope) && ManifestPending !in j && ManifestJson in j && Pending !in j
              && j == (if Pending in i then Moved(i, Pending, Lrec(Current(i) - 1)) else i)
  {
    if Pending in i && i[Pending].Whole? {
      PendingMoved(i, scope);
    }
  }

  lemma PendingMovedRecords(i: LogImage, scope: string)
    requires Inv(i, scope) && ManifestPending !in i && ManifestJson in i
    requires Pending in i && i[Pending].Whole?
    ensures var j := Moved(i, Pending, Lrec(Current(i) - 1));
            RecordsOk(j) && Records(j) == Admitted(i)
  {
    var n := Current(i) - 1;
    var j := Moved(i, Pending, Lrec(n));
    assert n !in Records(i);
    forall m: nat
      ensures m in Records(j) <==> m in Admitted(i)
      ensures m in Records(j) ==> Records(j)[m] == Admitted(i)[m]
    {
      assert Lrec(m) in j <==> Lrec(m) in i || m == n;
    }
    assert Distinct(j);
  }

  lemma PendingMoved(i: LogImage, scope: string)
    requires Inv(i, scope) && ManifestPending !in i && ManifestJson in i
    requires Pending in i && i[Pending].Whole?
    ensures Same(i, Moved(i, Pending, Lrec(Current(i) - 1)), scope)
  {
    var j := Moved(i, Pending, Lrec(Current(i) - 1));
    PendingMovedRecords(i, scope);
    assert ControlOk(j, scope);
    forall n: nat
      ensures Names(i, n) <==> Names(j, n)
      ensures Names(j, n) ==> Records(j)[n] == Records(i)[n]
    {
    }
    OrphanSame(i, j);
    assert StagesOk(j);
  }

  lemma ActivationMoved(i: LogImage, scope: string, n: nat)
    requires Inv(i, scope) && ManifestPending !in i && Pending !in i && ManifestJson in i
    requires ReplacePending in i && IsRecord(i[ReplacePending]) && i[ReplacePending].value.rec.ready
    requires n in Records(i) && SameRecord(Records(i)[n], i[ReplacePending].value.rec)
    ensures var j := Moved(i, ReplacePending, Lrec(n));
            Clean(j, scope) && Logical(j) == Logical(i) && !Orphaned(i) && !Orphaned(j)
  {
    var j := Moved(i, ReplacePending, Lrec(n));
    var r := i[ReplacePending].value.rec;
    assert r == Records(i)[n].(ready := true);
    var k := i - {ReplacePending};
    SameRecords(i, k);
    assert RecordsOk(k);
    assert Clean(k, scope);
    assert j == Replaced(k, ReplacePending, Lrec(n), Record(r));
    ActivateDone(k, scope, n);
    assert Names(i, n);
  }

  // ---------- one opening, step by step ----------

  ghost predicate TornStage(i: LogImage) {
    || (ManifestPending in i && i[ManifestPending].Torn?)
    || (Pending in i && i[Pending].Torn?)
    || (ReplacePending in i && i[ReplacePending].Torn?)
  }

  /** The files an opening reads as records. */
  predicate Consulted(k: LogName) { k.Lrec? || k.Pending? || k.ReplacePending? }

  ghost predicate RecordsReadable(i: LogImage) { forall k :: k in i && Consulted(k) ==> Readable(i[k]) }

  /** How far an opening that began at i0 has come: control finished, read, admission finished. */
  ghost predicate Trail(key: nat, c: Limits, i0: LogImage, i: LogImage, phase: nat) {
    Inv(i0, c.scope) ==>
      && KeptBy(key, c, i0, i)
      && (phase >= 1 ==> ManifestPending !in i && !(ManifestPending in i0 && i0[ManifestPending].Torn?))
      && (phase >= 2 ==> ManifestJson in i)
      && (phase >= 3 ==> Pending !in i && !(Pending in i0 && i0[Pending].Torn?))
      && SameFile(i0, i, ReplacePending)
      && (phase < 3 ==> SameFile(i0, i, Pending))
      && (RecordsReadable(i0) <==> RecordsReadable(i))
      && (|i| <= |i0| || |i| <= 1)
  }

  ghost predicate On(c: Limits, i0: LogImage, i: LogImage, phase: nat) {
    forall k: nat {:trigger Look(SpoolKey, k)} :: Look(SpoolKey, k) ==> Trail(k, c, i0, i, phase)
  }

  lemma OnStart(c: Limits, i0: LogImage)
    ensures On(c, i0, i0, 0)
  {
  }

  /** Nothing is claimed of a directory no run can leave. */
  lemma OnAny(c: Limits, i0: LogImage, i: LogImage, phase: nat)
    requires !Inv(i0, c.scope)
    ensures On(c, i0, i, phase)
  {
  }

  lemma OnReadable(c: Limits, i0: LogImage, i: LogImage, phase: nat, k: LogName)
    requires On(c, i0, i, phase) && k in i && Consulted(k) && !Readable(i[k])
    ensures Inv(i0, c.scope) ==> !RecordsReadable(i0)
  {
    assert Look(SpoolKey, 0);
  }

  lemma OnExpected(c: Limits, i0: LogImage, i: LogImage, k: LogName)
    requires On(c, i0, i, 3) && k in i && (k.Stray? || k.Pending? || k.ManifestPending?)
    ensures !Inv(i0, c.scope)
  {
    assert Look(SpoolKey, 0);
  }

  /** A staged activation that is not a ready record is a torn one. */
  lemma OnStaged(c: Limits, i0: LogImage, i: LogImage)
    requires On(c, i0, i, 3) && ReplacePending in i
    ensures Inv(i0, c.scope) && !(IsRecord(i[ReplacePending]) && i[ReplacePending].value.rec.ready) ==> TornStage(i0)
  {
    assert Look(SpoolKey, 0);
  }

  /** The sequence reserved for a staged admission is free. */
  lemma OnFree(c: Limits, i0: LogImage, i: LogImage)
    requires On(c, i0, i, 2) && Pending in i && Current(i) > 1
    ensures Inv(i0, c.scope) ==> Lrec(Current(i) - 1) !in i
  {
    assert Look(SpoolKey, 0);
  }

  lemma OnSame(c: Limits, i0: LogImage, i: LogImage, phase: nat)
    requires On(c, i0, i, phase) && Inv(i0, c.scope)
    ensures Kept(c, i0, i)
  {
    assert Look(SpoolKey, 0);
  }

  lemma OnFacts(c: Limits, i0: LogImage, i: LogImage, phase: nat)
    requires On(c, i0, i, phase) && Inv(i0, c.scope)
    ensures Inv(i, c.scope) && (phase >= 1 ==> ManifestPending !in i) && (phase >= 2 ==> ManifestJson in i)
    ensures phase >= 3 ==> Pending !in i
  {
    assert Look(SpoolKey, 0);
  }

  /** One image after another in the course of an opening. */
  ghost predicate Onto(c: Limits, i: LogImage, j: LogImage) {
    && KeptBy(0, c, i, j) && SameFile(i, j, ReplacePending)
    && (RecordsReadable(i) <==> RecordsReadable(j)) && |j| <= |i|
  }

  /** The admission is finished, or was, and what is staged is no admission. */
  lemma OnOnto(c: Limits, i0: LogImage, i: LogImage, j: LogImage, phase: nat)
    requires On(c, i0, i, phase) && phase >= 2
    requires Inv(i0, c.scope) ==>
               && Onto(c, i, j) && ManifestPending !in j && ManifestJson in j && Pending !in j
               && !(Pending in i && i[Pending].Torn?)
    ensures On(c, i0, j, 3)
  {
    if Inv(i0, c.scope) { assert Look(SpoolKey, 0); }
  }

  lemma OnEntries(c: Limits, i0: LogImage, i: LogImage, phase: nat)
    requires On(c, i0, i, phase) && Inv(i0, c.scope)
    ensures |i| <= |i0| || |i| <= 1
  {
    assert Look(SpoolKey, 0);
  }

  lemma OnOrphan(c: Limits, i0: LogImage, i: LogImage, phase: nat)
    requires On(c, i0, i, phase) && Inv(i0, c.scope)
    ensures Orphaned(i0) <==> Orphaned(i)
  {
    assert Look(SpoolKey, 0);
  }

  lemma ManifestWeight(i: LogImage, scope: string)
    requires Inv(i, scope) && ManifestPending in i && i[ManifestPending].Whole?
    ensures var j := Moved(i, ManifestPending, ManifestJson); Weight(j) == Weight(i) && Tally(j) == Tally(i)
  {
    var j := Moved(i, ManifestPending, ManifestJson);
    TotalFrame(SpaceOf(i), SpaceOf(j), Current(i));
    TotalExtend(SpaceOf(j), Current(i), Current(j));
    TotalFrame(OneEach(i), OneEach(j), Current(i));
    TotalExtend(OneEach(j), Current(i), Current(j));
  }

  lemma MovedSize(i: LogImage, k: LogName, target: LogName)
    requires k in i && k != target
    ensures |Moved(i, k, target)| <= |i|
  {
    var j := Moved(i, k, target);
    assert j.Keys == i.Keys - {k} + {target};
    assert |j| == |j.Keys| && |i| == |i.Keys|;
    assert |i.Keys - {k}| == |i.Keys| - 1;
    if target in i.Keys - {k} { assert j.Keys == i.Keys - {k}; }
  }

  /** Moving a record's file between names that are read as records leaves the same files to read. */
  lemma MovedReadable(i: LogImage, k: LogName, target: LogName)
    requires k in i && k != target && target !in i && Consulted(k) == Consulted(target)
    ensures RecordsReadable(Moved(i, k, target)) <==> RecordsReadable(i)
  {
    var j := Moved(i, k, target);
    assert j[target] == i[k];
    assert forall n :: n in i && n != k ==> n in j && j[n] == i[n];
  }

  lemma ManifestOnto(c: Limits, i: LogImage)
    requires Inv(i, c.scope) && ManifestPending in i && i[ManifestPending].Whole?
    ensures var j := Moved(i, ManifestPending, ManifestJson); Onto(c, i, j) && SameFile(i, j, Pending)
  {
    ManifestRecovered(i, c.scope);
    ManifestWeight(i, c.scope);
    MovedSize(i, ManifestPending, ManifestJson);
    ManifestReadable(i);
  }

  lemma ManifestReadable(i: LogImage)
    requires ManifestPending in i
    ensures RecordsReadable(i) <==> RecordsReadable(Moved(i, ManifestPending, ManifestJson))
  {
    var j := Moved(i, ManifestPending, ManifestJson);
    assert forall k :: Consulted(k) ==> (k in j <==> k in i) && (k in j ==> j[k] == i[k]);
  }

  lemma OnManifest(c: Limits, i0: LogImage)
    ensures match RecoverManifest(i0, c.scope)
            case Refuse => Inv(i0, c.scope) ==> TornStage(i0)
            case Go(j) => On(c, i0, j, 1)
  {
    if Inv(i0, c.scope) {
      ManifestRecovered(i0, c.scope);
      if RecoverManifest(i0, c.scope).Go? && ManifestPending in i0 { ManifestOnto(c, i0); }
    }
  }

  lemma FreshWeight(c: Limits, i: LogImage, j: LogImage)
    requires i == map[] && ReplaceCut(i, ManifestPending, ManifestJson, Manifest(c.scope, 1), j)
    ensures Weight(j) <= Weight(i) && Tally(j) <= Tally(i) && Current(j) == 1
  {
    TotalFrame(SpaceOf(i), SpaceOf(j), 1);
    TotalFrame(OneEach(i), OneEach(j), 1);
    assert Current(i) == Current(j) == 1;
  }

  lemma OnFresh(c: Limits, i0: LogImage, i: LogImage, j: LogImage)
    requires On(c, i0, i, 1) && ManifestJson !in i && Inv(i0, c.scope)
    requires ReplaceCut(i, ManifestPending, ManifestJson, Manifest(c.scope, 1), j)
    ensures Kept(c, i0, j)
    ensures j == Replaced(i, ManifestPending, ManifestJson, Manifest(c.scope, 1)) ==> On(c, i0, j, 2)
  {
    OnFacts(c, i0, i, 1);
    NewDirectory(i, c.scope);
    FreshManifest(c.scope, j);
    FreshWeight(c, i, j);
    assert Look(SpoolKey, 0);
    if j == Replaced(i, ManifestPending, ManifestJson, Manifest(c.scope, 1)) {
      assert j.Keys == {ManifestJson} && |j| == |j.Keys|;
    }
  }

  lemma OnLoaded(c: Limits, i0: LogImage, i: LogImage)
    requires On(c, i0, i, 1) && ManifestJson in i
    ensures On(c, i0, i, 2)
    ensures Inv(i0, c.scope) ==> IsManifest(i[ManifestJson], c.scope)
  {
    assert Look(SpoolKey, 0);
  }

  lemma OnPending(c: Limits, i0: LogImage, i: LogImage)
    requires On(c, i0, i, 2)
    requires Pending in i ==> Readable(i[Pending])
    ensures match RecoverPending(i)
            case Refuse => Inv(i0, c.scope) ==> TornStage(i0)
            case Go(j) => On(c, i0, j, 3)
  {
    var v := RecoverPending(i);
    if Inv(i0, c.scope) {
      OnFacts(c, i0, i, 2);
      PendingRecovered(i, c.scope);
      if v.Refuse? {
        OnTorn(c, i0, i);
      } else {
        if Pending in i { PendingOnto(c, i); }
        OnOnto(c, i0, i, v.image, 2);
      }
    } else if v.Go? {
      OnAny(c, i0, v.image, 3);
    }
  }

  lemma OnTorn(c: Limits, i0: LogImage, i: LogImage)
    requires On(c, i0, i, 2) && Inv(i0, c.scope) && Pending in i && i[Pending].Torn?
    ensures TornStage(i0)
  {
    assert Look(SpoolKey, 0);
  }

  lemma PendingOnto(c: Limits, i: LogImage)
    requires Inv(i, c.scope) && ManifestPending !in i && ManifestJson in i && Pending in i && i[Pending].Whole?
    ensures Onto(c, i, Moved(i, Pending, Lrec(Current(i) - 1)))
  {
    PendingMoved(i, c.scope);
    PendingWeight(i, c.scope);
    MovedSize(i, Pending, Lrec(Current(i) - 1));
    MovedReadable(i, Pending, Lrec(Current(i) - 1));
  }

  /** The staged admission goes under the sequence reserved for it. */
  lemma OnPlaced(c: Limits, i0: LogImage, i: LogImage)
    requires On(c, i0, i, 2) && Pending in i && Readable(i[Pending]) && IsRecord(i[Pending]) && Current(i) > 1
    requires Lrec(Current(i) - 1) !in i
    ensures var j := Moved(i, Pending, Lrec(Current(i) - 1)); On(c, i0, j, 3) && Current(j) == Current(i)
  {
    OnPending(c, i0, i);
  }

  lemma PendingWeight(i: LogImage, scope: string)
    requires Inv(i, scope) && Pending in i && i[Pending].Whole?
    ensures var j := Moved(i, Pending, Lrec(Current(i) - 1)); Weight(j) == Weight(i) && Tally(j) == Tally(i)
  {
    var n := Current(i) - 1;
    var j := Moved(i, Pending, Lrec(n));
    TotalChange(SpaceOf(i), SpaceOf(j), n, Current(i));
    TotalChange(OneEach(i), OneEach(j), n, Current(i));
  }

  lemma OnQuarantine(c: Limits, i0: LogImage, i: LogImage, n: nat)
    requires On(c, i0, i, 3) && Lrec(n) in i && !IsRecord(i[Lrec(n)]) && Readable(i[Lrec(n)])
    ensures On(c, i0, Moved(i, Lrec(n), Bad(n)), 3)
  {
    if Inv(i0, c.scope) {
      OnFacts(c, i0, i, 3);
      QuarantineSame(i, c.scope, n);
      QuarantineWeight(i, n);
      MovedSize(i, Lrec(n), Bad(n));
      QuarantineReadable(i, n);
    }
    OnOnto(c, i0, i, Moved(i, Lrec(n), Bad(n)), 3);
  }

  lemma QuarantineReadable(i: LogImage, n: nat)
    requires Lrec(n) in i && Readable(i[Lrec(n)])
    ensures RecordsReadable(Moved(i, Lrec(n), Bad(n))) <==> RecordsReadable(i)
  {
    var j := Moved(i, Lrec(n), Bad(n));
    assert forall k :: Consulted(k) && k != Lrec(n) ==> (k in j <==> k in i) && (k in j ==> j[k] == i[k]);
  }

  lemma QuarantineWeight(i: LogImage, n: nat)
    requires Lrec(n) in i
    ensures var j := Moved(i, Lrec(n), Bad(n)); Weight(j) <= Weight(i) && Tally(j) <= Tally(i)
  {
    var j := Moved(i, Lrec(n), Bad(n));
    TotalMonotone(SpaceOf(j), SpaceOf(i), Current(i));
    TotalMonotone(OneEach(j), OneEach(i), Current(i));
  }

  lemma QuarantineSame(i: LogImage, scope: string, n: nat)
    requires Inv(i, scope) && ManifestPending !in i && Pending !in i && ManifestJson in i
    requires Lrec(n) in i && !IsRecord(i[Lrec(n)])
    ensures var j := Moved(i, Lrec(n), Bad(n));
            Same(i, j, scope) && Records(j) == Records(i) && Current(j) == Current(i)
  {
    var j := Moved(i, Lrec(n), Bad(n));
    SameRecordsBut(i, j, n);
    assert RecordsOk(j);
    OrphanSame(i, j);
  }

  lemma SameRecordsBut(i: LogImage, j: LogImage, n: nat)
    requires forall m: nat :: Lrec(m) in j <==> Lrec(m) in i && m != n
    requires forall m: nat :: Lrec(m) in j ==> j[Lrec(m)] == i[Lrec(m)]
    requires n !in Records(i)
    ensures Records(j) == Records(i)
  {
  }
}
