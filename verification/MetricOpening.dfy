/**
Opening the metrics spool: which directories it knows, and what its steps keep.
*/
module MetricOpening {
  import opened Keys
  import opened Storage
  import opened SpoolAccounts
  import opened SpoolNames
  import opened MetricSpool
  import opened MetricMigration
  import opened MetricAccounts

  /** Why an opening stopped. */
  datatype OpenError =
    | Opened
    | Io
    | PendingAmbiguous
    | RequiresV2
    | JournalUnsafe
    | MigrationMismatch
    | ControlUnavailable
    | MigrationConflict
    | MigrationAmbiguous
    | MissingControl
    | BadControl
    | ScopeMismatch
    | Unverified
    | Ambiguous
    | StageConflict
    | TooMany
    | Unexpected
    | BadSequence
    | Unsafe
    | OverBudget

  /** The version 1 scope a spool is being moved from: the journal's, once there is one. */
  function FormerOf(c: Settings, i: MetricImage): string {
    if Journal in i && i[Journal].Whole? && i[Journal].value.Move? then i[Journal].value.oldScope else c.legacy
  }

  /** A directory that runs with these settings, or a version 1 agent before them, can have left. */
  ghost predicate Known(c: Settings, i: MetricImage) {
    || Inv(i, c.version, c.scope)
    || (c.version == 2 && (Inv(i, 1, c.legacy) || Migrating(i, FormerOf(c, i), c.scope)))
  }

  /** Record files stay as they are or, when they do not decode, are kept aside. */
  ghost predicate Apart(i: MetricImage, j: MetricImage) {
    && (forall n: nat :: Rec(n) in j ==> Rec(n) in i && j[Rec(n)] == i[Rec(n)])
    && (forall n: nat :: Bad(n) in i ==> Bad(n) in j && j[Bad(n)] == i[Bad(n)])
    && (forall n: nat :: Rec(n) in i && Rec(n) !in j ==> Bad(n) in j && j[Bad(n)] == i[Rec(n)] && !IsPayload(i[Rec(n)]))
    && (forall n: nat :: Bad(n) in j && Bad(n) !in i ==> Rec(n) in i && Rec(n) !in j)
  }

  ghost predicate KeptBy(key: nat, c: Settings, i: MetricImage, j: MetricImage) {
    Known(c, j) && Logical(j) == Logical(i) && Space(j) == Space(i) && Number(j) == Number(i) && Apart(i, j)
  }

  /** Opening i may leave j: the same records, numbers and space. */
  ghost predicate Kept(c: Settings, i: MetricImage, j: MetricImage) {
    forall k: nat {:trigger Look(KeptKey, k)} :: Look(KeptKey, k) ==> KeptBy(k, c, i, j)
  }

  lemma SameFilesSame(i: MetricImage, j: MetricImage)
    requires SameRecordFiles(i, j) && NextOf(i) == NextOf(j)
    ensures Logical(i) == Logical(j) && Space(i) == Space(j) && Number(i) == Number(j) && Apart(i, j)
  {
    SameFilesSameRecords(i, j);
    TotalFrame(CostOf(i), CostOf(j), NextOf(i));
    TotalFrame(OneOf(i), OneOf(j), NextOf(i));
  }

  // ---------- the move ----------

  ghost predicate Moved1(key: nat, c: Settings, i0: MetricImage, i: MetricImage) {
    Known(c, i0) ==>
      && c.version == 2 && Migrating(i, FormerOf(c, i0), c.scope)
      && (Journal in i || FormerOf(c, i0) == c.legacy)
      && SameRecordFiles(i0, i) && NextOf(i) == NextOf(i0)
  }

  /** A migration that began, or was taken up again, at i0 has come to i. */
  ghost predicate Moving(c: Settings, i0: MetricImage, i: MetricImage) {
    forall k: nat {:trigger Look(MetricsKey, k)} :: Look(MetricsKey, k) ==> Moved1(k, c, i0, i)
  }

  lemma MovingKept(c: Settings, i0: MetricImage, i: MetricImage)
    requires Moving(c, i0, i) && Known(c, i0)
    ensures Kept(c, i0, i)
  {
    assert Look(MetricsKey, 0);
    SameFilesSame(i0, i);
  }

  lemma MovingJournal(c: Settings, i0: MetricImage, i: MetricImage, j: MetricImage)
    requires Moving(c, i0, i) && Journal !in i
    requires ScopeCut(i, JournalNext, Journal, Move(c.legacy, c.scope, NextOf(i)), j)
    ensures Moving(c, i0, j)
  {
    if Known(c, i0) {
      assert Look(MetricsKey, 0);
      JournalCutSafe(i, c.legacy, c.scope, j);
    }
  }

  lemma MovingBackup(c: Settings, i0: MetricImage, i: MetricImage, j: MetricImage)
    requires Moving(c, i0, i) && Journal in i
    requires ScopeCut(i, BackupNext, Backup, Manifest(2, c.scope, NextOf(i)), j)
    ensures Moving(c, i0, j)
    ensures Known(c, i0) ==> NextOf(j) == NextOf(i)
  {
    if Known(c, i0) {
      assert Look(MetricsKey, 0);
      BackupCutSafe(i, FormerOf(c, i0), c.scope, j);
    }
  }

  lemma MovingJson(c: Settings, i0: MetricImage, i: MetricImage, j: MetricImage)
    requires Moving(c, i0, i) && Journal in i && BackupNext !in i
    requires Backup in i && i[Backup] == Whole(Manifest(2, c.scope, NextOf(i)))
    requires ScopeCut(i, JsonNext, Json, Manifest(2, c.scope, NextOf(i)), j)
    ensures Moving(c, i0, j)
    ensures Known(c, i0) ==> NextOf(j) == NextOf(i)
  {
    if Known(c, i0) {
      assert Look(MetricsKey, 0);
      JsonCutSafe(i, FormerOf(c, i0), c.scope, j);
    }
  }

  /** Both copies agree, journal and stages are gone, and no record was touched. */
  ghost predicate Completed(c: Settings, i0: MetricImage, i: MetricImage) {
    && Clean(i, 2, c.scope) && c.version == 2
    && Json in i && i[Json] == i[Backup] == Whole(Manifest(2, c.scope, NextOf(i0)))
    && SameRecordFiles(i0, i) && NextOf(i) == NextOf(i0)
  }

  lemma MovingDone(c: Settings, i0: MetricImage, i: MetricImage)
    requires Moving(c, i0, i) && Known(c, i0) && Journal in i && BackupNext !in i && JsonNext !in i
    requires Json in i && Backup in i && i[Json] == i[Backup] == Whole(Manifest(2, c.scope, NextOf(i)))
    ensures Completed(c, i0, i - {Journal}) && Kept(c, i0, i - {Journal})
  {
    assert Look(MetricsKey, 0);
    JournalRemoved(i, FormerOf(c, i0), c.scope);
    SameFilesSame(i0, i - {Journal});
  }

  lemma CompletedKept(c: Settings, i0: MetricImage, i: MetricImage)
    requires Completed(c, i0, i)
    ensures Kept(c, i0, i) && KeptBy(0, c, i0, i)
  {
    SameFilesSame(i0, i);
  }

  /** A control copy that does not contradict a journal. */
  predicate Fits(f: File<MetricFile>, former: string, scope: string, n: nat) {
    && f.Whole? && f.value.Manifest? && f.value.next == n
    && ((f.value.version == 1 && f.value.scope == former) || (f.value.version == 2 && f.value.scope == scope))
  }

  /** Taking up a journal: the scope must be its scope, and the copies must not contradict it. */
  lemma MovingResumed(c: Settings, i: MetricImage)
    requires Journal in i && c.version == 2
    ensures Known(c, i) ==>
              && i[Journal] == Whole(Move(FormerOf(c, i), c.scope, NextOf(i)))
              && ScopeHash(FormerOf(c, i)) && 1 <= NextOf(i)
              && Backup in i && ManifestValid(i[Backup]) && Fits(i[Backup], FormerOf(c, i), c.scope, NextOf(i))
              && (Json in i && i[Json].Whole? ==> ManifestValid(i[Json]) && Fits(i[Json], FormerOf(c, i), c.scope, NextOf(i)))
    ensures Moving(c, i, i)
  {
  }

  /** Beginning a move: version 1, the legacy scope, and a backup that agrees. */
  lemma MovingBegun(c: Settings, i: MetricImage)
    requires c.version == 2 && Journal !in i && Pending !in i && ScopeHash(c.scope)
    requires Backup in i && ManifestValid(i[Backup]) && i[Backup].value.version == 1 && i[Backup].value.scope == c.legacy
    requires Json in i && i[Json].Whole? ==> i[Backup] == i[Json]
    ensures Moving(c, i, i)
  {
    if Inv(i, 1, c.legacy) {
      AgreedMigrating(i, c.legacy, c.scope);
    }
  }

  /** The files an opening reads as records. */
  predicate Consulted(k: MetricName) { k.Rec? || k.Bad? || k.Pending? }

  predicate Readable(f: File<MetricFile>) { Size(f) <= READ_LIMIT }

  ghost predicate RecordsReadable(i: MetricImage) { forall k :: k in i && Consulted(k) ==> Readable(i[k]) }

  /** The same files are consulted. */
  lemma SameReadable(i: MetricImage, j: MetricImage)
    requires SameRecordFiles(i, j) && (Pending in i <==> Pending in j) && (Pending in i ==> i[Pending] == j[Pending])
    ensures RecordsReadable(i) <==> RecordsReadable(j)
  {
    assert forall k :: Consulted(k) ==> (k in i <==> k in j) && (k in i ==> i[k] == j[k]);
  }

  /** Some stage of a move is torn. */
  ghost predicate TornStage(i: MetricImage) {
    || (JournalNext in i && i[JournalNext].Torn?)
    || (BackupNext in i && i[BackupNext].Torn?)
    || (JsonNext in i && i[JsonNext].Torn?)
  }

  /** The control file of a version 1 spool says other than its backup. */
  ghost predicate Disagree(c: Settings, i: MetricImage) {
    Inv(i, 1, c.legacy) && Json in i && i[Json].Whole? && i[Backup] != i[Json]
  }

  // ---------- after the control copies ----------

  ghost predicate Loaded1(key: nat, c: Settings, i0: MetricImage, i: MetricImage) {
    Known(c, i0) ==>
      && Inv(i, c.version, c.scope) && KeptBy(key, c, i0, i) && Backup in i && (Pending in i ==> c.version == 1)
      && (RecordsReadable(i0) <==> RecordsReadable(i))
  }

  /** The control copies are those of these settings. */
  ghost predicate Loaded(c: Settings, i0: MetricImage, i: MetricImage) {
    forall k: nat {:trigger Look(MetricsKey, k)} :: Look(MetricsKey, k) ==> Loaded1(k, c, i0, i)
  }

  lemma LoadedKept(c: Settings, i0: MetricImage, i: MetricImage)
    requires Loaded(c, i0, i) && Known(c, i0)
    ensures Kept(c, i0, i)
  {
    assert Look(MetricsKey, 0);
  }

  lemma LoadedCompleted(c: Settings, i0: MetricImage, i: MetricImage)
    requires Known(c, i0) ==> Completed(c, i0, i) && Pending !in i0
    ensures Loaded(c, i0, i)
  {
    if Known(c, i0) {
      CompletedKept(c, i0, i);
      SameReadable(i0, i);
    }
  }

  /** The copy that is read carries these settings' version and scope. */
  lemma LoadedAsIs(c: Settings, i: MetricImage)
    requires Journal !in i && (c.version == 2 ==> Pending !in i)
    requires c.version in {1, 2}
    requires Json in i || Backup in i
    requires var k := if Json in i && i[Json].Whole? then Json else Backup;
             k in i && ManifestValid(i[k]) && i[k].value.version == c.version && i[k].value.scope == c.scope
    ensures Loaded(c, i, i)
  {
  }

  /** What known directories without a journal are read to hold. */
  lemma CopyRead(c: Settings, i: MetricImage)
    requires Journal !in i && ScopeHash(c.scope) && ScopeHash(c.legacy) && c.version in {1, 2}
    ensures var k := if Json in i && i[Json].Whole? then Json else Backup;
            Known(c, i) && (Json in i || Backup in i) ==>
              && k in i && ManifestValid(i[k]) && i[k].value.next == NextOf(i)
              && ((i[k].value.version == c.version && i[k].value.scope == c.scope)
                  || (c.version == 2 && i[k].value.version == 1 && i[k].value.scope == c.legacy))
    ensures Known(c, i) && Json !in i && Backup !in i ==> forall k :: k in i ==> k == Pending
    ensures (&& Known(c, i) && c.version == 2 && Json in i && i[Json].Whole? && ManifestValid(i[Json])
             && i[Json].value.version == 1 && i[Json].value.scope == c.legacy && !(Backup in i && i[Backup] == i[Json]))
            ==> Disagree(c, i)
  {
  }

  lemma FreshInv(c: Settings, j: MetricImage)
    requires ReserveCut(map[], Manifest(c.version, c.scope, 1), j)
    ensures Inv(j, c.version, c.scope) && NextOf(j) == 1 && SameRecordFiles(map[], j)
  {
    assert forall n: nat :: Rec(n) !in j && Bad(n) !in j;
  }

  /** The first control copies of a new directory, cut anywhere. */
  lemma FreshSafe(c: Settings, j: MetricImage)
    requires ReserveCut(map[], Manifest(c.version, c.scope, 1), j)
    ensures Kept(c, map[], j)
    ensures j == Reserved(map[], Manifest(c.version, c.scope, 1)) ==> Loaded(c, map[], j)
  {
    FreshInv(c, j);
    SameFilesSame(map[], j);
    if j == Reserved(map[], Manifest(c.version, c.scope, 1)) { SameReadable(map[], j); }
  }

  // ---------- scanning ----------

  function VisitedCost(i: MetricImage, todo: set<MetricName>): nat -> nat {
    (n: nat) => (if Rec(n) in i && Rec(n) !in todo then Charge(Size(i[Rec(n)])) else 0)
              + (if Bad(n) in i && Bad(n) !in todo then Charge(Size(i[Bad(n)])) else 0)
  }

  function VisitedOne(i: MetricImage, todo: set<MetricName>): nat -> nat {
    (n: nat) => (if Rec(n) in i && Rec(n) !in todo then 1 else 0) + (if Bad(n) in i && Bad(n) !in todo then 1 else 0)
  }

  ghost predicate Distinct(s: seq<nat>) {
    forall a, b :: 0 <= a < b < |s| ==> s[a] != s[b]
  }

  /** The index holds what was visited, and nothing else. */
  ghost predicate Visited(c: Settings, i: MetricImage, todo: set<MetricName>, x: MetricIndex) {
    && x.next == NextOf(i)
    && Distinct(x.names) && (forall n :: n in x.names <==> Rec(n) in i && Rec(n) !in todo)
    && x.bytes == Overhead(c) + Total(VisitedCost(i, todo), x.next)
    && x.count == Total(VisitedOne(i, todo), x.next)
    && x.count == |x.names| + x.corrupt
    && todo <= i.Keys && (Pending in i ==> Pending in todo)
    && (forall k :: k in i && Consulted(k) && k !in todo ==> Readable(i[k]))
  }

  ghost predicate Scanning1(key: nat, c: Settings, i0: MetricImage, i: MetricImage, todo: set<MetricName>, x: MetricIndex) {
    Known(c, i0) ==> Inv(i, c.version, c.scope) && Visited(c, i, todo, x)
  }

  ghost predicate Scanning(c: Settings, i0: MetricImage, i: MetricImage, todo: set<MetricName>, x: MetricIndex) {
    && Loaded(c, i0, i)
    && forall k: nat {:trigger Look(MetricsKey, k)} :: Look(MetricsKey, k) ==> Scanning1(k, c, i0, i, todo, x)
  }

  lemma ScanStart(c: Settings, i0: MetricImage, i: MetricImage, next: nat)
    requires Loaded(c, i0, i) && (Known(c, i0) ==> next == NextOf(i))
    ensures Scanning(c, i0, i, i.Keys, MetricIndex(next, [], Overhead(c), 0, 0))
  {
    assert Look(MetricsKey, 0);
    TotalExtend(VisitedCost(i, i.Keys), 0, next);
    TotalExtend(VisitedOne(i, i.Keys), 0, next);
  }

  lemma VisitOther(c: Settings, i: MetricImage, todo: set<MetricName>, x: MetricIndex, k: MetricName)
    requires Visited(c, i, todo, x) && !k.Rec? && !k.Bad? && !k.Pending?
    ensures Visited(c, i, todo - {k}, x)
  {
    TotalFrame(VisitedCost(i, todo), VisitedCost(i, todo - {k}), x.next);
    TotalFrame(VisitedOne(i, todo), VisitedOne(i, todo - {k}), x.next);
  }

  lemma ScanOther(c: Settings, i0: MetricImage, i: MetricImage, todo: set<MetricName>, x: MetricIndex, k: MetricName)
    requires Scanning(c, i0, i, todo, x) && !k.Rec? && !k.Bad? && !k.Pending?
    ensures Scanning(c, i0, i, todo - {k}, x)
  {
    assert Look(MetricsKey, 0);
    if Known(c, i0) {
      VisitOther(c, i, todo, x, k);
      ScanIntro(c, i0, i, todo - {k}, x);
    }
  }

  lemma ScanIntro(c: Settings, i0: MetricImage, i: MetricImage, todo: set<MetricName>, x: MetricIndex)
    requires Loaded(c, i0, i) && Inv(i, c.version, c.scope) && Visited(c, i, todo, x)
    ensures Scanning(c, i0, i, todo, x)
  {
  }

  /** Only control copies, records, and with version 1 a pending stage, are expected. */
  lemma ScanExpected(c: Settings, i0: MetricImage, i: MetricImage, todo: set<MetricName>, x: MetricIndex, k: MetricName)
    requires Scanning(c, i0, i, todo, x) && k in todo
    ensures Known(c, i0) ==> k.Json? || k.Backup? || k.Rec? || k.Bad? || (k.Pending? && c.version == 1)
    ensures Known(c, i0) && k.Rec? ==> 1 <= k.n < x.next && k.n !in x.names && Bad(k.n) !in i
    ensures Known(c, i0) && k.Bad? ==> 1 <= k.n < x.next
    ensures Known(c, i0) ==> k in i
  {
    assert Look(MetricsKey, 0);
    if Known(c, i0) && k.Rec? { SequencesBelow(i, c.version, c.scope, k.n); }
    if Known(c, i0) && k.Bad? { SequencesBelow(i, c.version, c.scope, k.n); }
  }

  function WithFile(x: MetricIndex, size: nat, names: seq<nat>): MetricIndex {
    MetricIndex(x.next, x.names + names, x.bytes + Charge(size), x.count + 1, if names == [] then x.corrupt + 1 else x.corrupt)
  }

  lemma VisitOne(c: Settings, i: MetricImage, todo: set<MetricName>, x: MetricIndex, n: nat, k: MetricName)
    requires Visited(c, i, todo, x) && n < x.next && (k == Rec(n) || k == Bad(n)) && k in todo
    ensures Total(VisitedCost(i, todo - {k}), x.next) == Total(VisitedCost(i, todo), x.next) + Charge(Size(i[k]))
    ensures Total(VisitedOne(i, todo - {k}), x.next) == Total(VisitedOne(i, todo), x.next) + 1
  {
    TotalChange(VisitedCost(i, todo), VisitedCost(i, todo - {k}), n, x.next);
    TotalChange(VisitedOne(i, todo), VisitedOne(i, todo - {k}), n, x.next);
  }

  lemma ScanRecord(c: Settings, i0: MetricImage, i: MetricImage, todo: set<MetricName>, x: MetricIndex, n: nat)
    requires Scanning(c, i0, i, todo, x) && Rec(n) in todo && Rec(n) in i && Readable(i[Rec(n)])
    ensures Scanning(c, i0, i, todo - {Rec(n)}, WithFile(x, Size(i[Rec(n)]), [n]))
  {
    ScanExpected(c, i0, i, todo, x, Rec(n));
    assert Look(MetricsKey, 0);
    if Known(c, i0) {
      VisitOne(c, i, todo, x, n, Rec(n));
      assert Visited(c, i, todo - {Rec(n)}, WithFile(x, Size(i[Rec(n)]), [n]));
    }
  }

  lemma ScanBad(c: Settings, i0: MetricImage, i: MetricImage, todo: set<MetricName>, x: MetricIndex, n: nat)
    requires Scanning(c, i0, i, todo, x) && Bad(n) in todo && Bad(n) in i && Readable(i[Bad(n)])
    ensures Scanning(c, i0, i, todo - {Bad(n)}, WithFile(x, Size(i[Bad(n)]), []))
  {
    ScanExpected(c, i0, i, todo, x, Bad(n));
    assert Look(MetricsKey, 0);
    if Known(c, i0) {
      VisitOne(c, i, todo, x, n, Bad(n));
      assert x.names + [] == x.names;
      assert Visited(c, i, todo - {Bad(n)}, WithFile(x, Size(i[Bad(n)]), []));
    }
  }

  lemma LoadedAside(c: Settings, i0: MetricImage, i: MetricImage, n: nat)
    requires Loaded(c, i0, i) && Rec(n) in i && !IsPayload(i[Rec(n)])
    ensures Loaded(c, i0, Moved(i, Rec(n), Bad(n)))
  {
    if Known(c, i0) {
      assert Look(MetricsKey, 0);
      AsideSafe(i, c.version, c.scope, n);
      AsideSpace(i, n);
      AsideApart(i0, i, n);
      AsideReadable(i, n);
    }
  }

  lemma AsideApart(i0: MetricImage, i: MetricImage, n: nat)
    requires Apart(i0, i) && Rec(n) in i && !IsPayload(i[Rec(n)]) && Bad(n) !in i
    ensures Apart(i0, Moved(i, Rec(n), Bad(n)))
  {
  }

  lemma AsideReadable(i: MetricImage, n: nat)
    requires Rec(n) in i && Bad(n) !in i
    ensures RecordsReadable(Moved(i, Rec(n), Bad(n))) <==> RecordsReadable(i)
  {
    var j := Moved(i, Rec(n), Bad(n));
    assert j[Bad(n)] == i[Rec(n)];
    assert forall k :: k in i && k != Rec(n) ==> k in j && j[k] == i[k];
  }

  lemma VisitRotten(c: Settings, i: MetricImage, todo: set<MetricName>, x: MetricIndex, n: nat)
    requires Visited(c, i, todo, x) && n < x.next && Rec(n) in todo && Bad(n) !in i && Readable(i[Rec(n)])
    ensures Visited(c, Moved(i, Rec(n), Bad(n)), todo - {Rec(n)}, WithFile(x, Size(i[Rec(n)]), []))
  {
    var j := Moved(i, Rec(n), Bad(n));
    TotalChange(VisitedCost(i, todo), VisitedCost(j, todo - {Rec(n)}), n, x.next);
    TotalChange(VisitedOne(i, todo), VisitedOne(j, todo - {Rec(n)}), n, x.next);
    assert x.names + [] == x.names;
  }

  lemma ScanRotten(c: Settings, i0: MetricImage, i: MetricImage, todo: set<MetricName>, x: MetricIndex, n: nat)
    requires Scanning(c, i0, i, todo, x) && Rec(n) in todo && Rec(n) in i && !IsPayload(i[Rec(n)]) && Readable(i[Rec(n)])
    ensures Scanning(c, i0, Moved(i, Rec(n), Bad(n)), todo - {Rec(n)}, WithFile(x, Size(i[Rec(n)]), []))
  {
    ScanExpected(c, i0, i, todo, x, Rec(n));
    LoadedAside(c, i0, i, n);
    assert Look(MetricsKey, 0);
    if Known(c, i0) {
      VisitRotten(c, i, todo, x, n);
    }
  }

  lemma LoadedDropped(c: Settings, i0: MetricImage, i: MetricImage)
    requires Loaded(c, i0, i) && (Pending in i ==> Readable(i[Pending]))
    ensures Loaded(c, i0, i - {Pending})
  {
    if Known(c, i0) {
      assert Look(MetricsKey, 0);
      var j := i - {Pending};
      DroppedInv(i, c.version, c.scope);
      DroppedSame(i);
      ApartSame(i0, i, j);
      DroppedReadable(i);
    }
  }

  lemma DroppedSame(i: MetricImage)
    ensures var j := i - {Pending};
            SameRecordFiles(i, j) && NextOf(j) == NextOf(i)
            && Logical(j) == Logical(i) && Space(j) == Space(i) && Number(j) == Number(i)
  {
    var j := i - {Pending};
    assert NextOf(j) == NextOf(i);
    SameFilesSame(i, j);
  }

  lemma ApartSame(i0: MetricImage, i: MetricImage, j: MetricImage)
    requires Apart(i0, i) && SameRecordFiles(i, j)
    ensures Apart(i0, j)
  {
  }

  lemma DroppedReadable(i: MetricImage)
    requires Pending in i ==> Readable(i[Pending])
    ensures RecordsReadable(i) <==> RecordsReadable(i - {Pending})
  {
    assert forall k :: k in i && k != Pending ==> k in i - {Pending};
  }

  lemma VisitPending(c: Settings, i: MetricImage, todo: set<MetricName>, x: MetricIndex)
    requires Visited(c, i, todo, x)
    ensures Visited(c, i - {Pending}, todo - {Pending}, x)
  {
    var j := i - {Pending};
    TotalFrame(VisitedCost(i, todo), VisitedCost(j, todo - {Pending}), x.next);
    TotalFrame(VisitedOne(i, todo), VisitedOne(j, todo - {Pending}), x.next);
  }

  lemma DroppedInv(i: MetricImage, version: nat, scope: string)
    requires Inv(i, version, scope)
    ensures Inv(i - {Pending}, version, scope)
  {
    var j := i - {Pending};
    assert forall n: nat :: Below(j, n) <==> Below(i, n);
  }

  /** Version 1 discards a pending stage. */
  lemma ScanPending(c: Settings, i0: MetricImage, i: MetricImage, todo: set<MetricName>, x: MetricIndex)
    requires Scanning(c, i0, i, todo, x) && (Pending in i ==> Readable(i[Pending]))
    ensures Scanning(c, i0, i - {Pending}, todo - {Pending}, x)
  {
    LoadedDropped(c, i0, i);
    assert Look(MetricsKey, 0);
    if Known(c, i0) {
      VisitPending(c, i, todo, x);
      DroppedInv(i, c.version, c.scope);
      ScanIntro(c, i0, i - {Pending}, todo - {Pending}, x);
    }
  }

  lemma ScanReadable(c: Settings, i0: MetricImage, i: MetricImage, todo: set<MetricName>, x: MetricIndex, k: MetricName)
    requires Scanning(c, i0, i, todo, x) && k in i && Consulted(k) && !Readable(i[k])
    ensures Known(c, i0) ==> !RecordsReadable(i0)
  {
    assert Look(MetricsKey, 0);
  }

  lemma ScanDone(c: Settings, i0: MetricImage, i: MetricImage, x: MetricIndex)
    requires Scanning(c, i0, i, {}, x) && Known(c, i0)
    ensures x.bytes == Overhead(c) + Space(i0) && x.count == Number(i0) && Logical(i) == Logical(i0)
    ensures x.bytes <= c.maxBytes && x.count <= c.maxItems ==> Good(c, i, x.(names := Sort(x.names)))
    ensures RecordsReadable(i0)
  {
    assert Look(MetricsKey, 0);
    TotalFrame(VisitedCost(i, {}), CostOf(i), x.next);
    TotalFrame(VisitedOne(i, {}), OneOf(i), x.next);
    SortLength(x.names);
    assert Increasing(Sort(x.names));
  }

  /** Within both bounds exactly when the directory was; and then the index is exact. */
  lemma ScanEnd(c: Settings, i0: MetricImage, i: MetricImage, x: MetricIndex)
    requires Scanning(c, i0, i, {}, x) && Known(c, i0)
    ensures Room(c, i0) <==> x.bytes <= c.maxBytes && x.count <= c.maxItems
    ensures Room(c, i0) ==> Good(c, i, x.(names := Sort(x.names))) && Logical(i) == Logical(i0)
    ensures RecordsReadable(i0)
  {
    ScanDone(c, i0, i, x);
  }

  // ---------- how many entries there are ----------

  /** The record files, quarantined ones included, numbered below a bound. */
  ghost predicate AreBelow(i: MetricImage, upTo: nat, s: set<MetricName>) {
    && (forall n: nat :: Rec(n) in s <==> Rec(n) in i && n < upTo)
    && (forall n: nat :: Bad(n) in s <==> Bad(n) in i && n < upTo)
    && (forall k :: k in s ==> k.Rec? || k.Bad?)
  }

  lemma NoFiles(i: MetricImage, s: set<MetricName>)
    requires AreBelow(i, 0, s)
    ensures |s| == 0
  {
    assert s == {};
  }

  lemma FewerFiles(i: MetricImage, n: nat, s: set<MetricName>)
    requires AreBelow(i, n + 1, s)
    ensures AreBelow(i, n, s - {Rec(n)} - {Bad(n)})
    ensures |s| == |s - {Rec(n)} - {Bad(n)}| + OneOf(i)(n)
  {
    assert Bad(n) in s - {Rec(n)} <==> Bad(n) in i;
    assert Rec(n) in s <==> Rec(n) in i;
  }

  lemma {:induction false} CountFiles(i: MetricImage, upTo: nat, s: set<MetricName>)
    requires AreBelow(i, upTo, s)
    ensures |s| == Total(OneOf(i), upTo)
    decreases upTo
  {
    if upTo == 0 {
      NoFiles(i, s);
    } else {
      var n: nat := upTo - 1;
      var fewer := s - {Rec(n)} - {Bad(n)};
      FewerFiles(i, n, s);
      CountFiles(i, n, fewer);
      var one := OneOf(i);
      assert Total(one, upTo) == Total(one, n) + one(n);
    }
  }

  const CONTROL: set<MetricName> := {Json, Backup, Pending, Journal, JsonNext, BackupNext, JournalNext}

  lemma ControlNames()
    ensures |CONTROL| == 7
  {
  }

  /** Records below the next number, and at most seven control files and stages. */
  lemma EntriesBound(i: MetricImage)
    requires forall k :: k in i ==> !k.Stray?
    requires forall n: nat :: Rec(n) in i || Bad(n) in i ==> n < NextOf(i)
    ensures |i| <= Number(i) + 7
  {
    var files := set k | k in i && (k.Rec? || k.Bad?);
    CountFiles(i, NextOf(i), files);
    ControlNames();
    OnlyControl(i, i.Keys - files);
    CardinalityBound(i.Keys - files, CONTROL);
    SplitCount(i.Keys, files);
    assert |i| == |i.Keys|;
  }

  lemma OnlyControl(i: MetricImage, rest: set<MetricName>)
    requires forall k :: k in i ==> !k.Stray?
    requires forall k :: k in rest ==> k in i && !k.Rec? && !k.Bad?
    ensures rest <= CONTROL
  {
  }

  lemma SplitCount(all: set<MetricName>, some: set<MetricName>)
    requires some <= all
    ensures |all| == |all - some| + |some|
  {
    assert all == (all - some) + some;
  }

  lemma {:induction false} CardinalityBound(a: set<MetricName>, b: set<MetricName>)
    requires a <= b
    ensures |a| <= |b|
  {
    assert b == a + (b - a);
  }

  lemma KnownBelow(c: Settings, i: MetricImage, n: nat)
    requires Known(c, i) && (Rec(n) in i || Bad(n) in i)
    ensures n < NextOf(i)
  {
    if Inv(i, c.version, c.scope) { SequencesBelow(i, c.version, c.scope, n); }
    else if Inv(i, 1, c.legacy) { SequencesBelow(i, 1, c.legacy, n); }
  }

  /** No spool within a budget that can be configured has too many entries. */
  lemma FewEntries(c: Settings, i: MetricImage)
    requires Known(c, i) && Room(c, i) && c.maxItems <= 1024
    ensures |i| + 1 <= 4096
  {
    forall n: nat | Rec(n) in i || Bad(n) in i
      ensures n < NextOf(i)
    {
      KnownBelow(c, i, n);
    }
    EntriesBound(i);
  }

  lemma EntriesLimit(c: Settings, i: MetricImage, entries: set<MetricName>)
    requires Known(c, i) && entries == i.Keys && |entries| + 1 > 4096
    ensures !(Room(c, i) && c.maxItems <= 1024)
  {
    assert |i| == |i.Keys|;
    if Room(c, i) && c.maxItems <= 1024 { FewEntries(c, i); }
  }

  lemma LoadedEntries(c: Settings, i0: MetricImage, i: MetricImage)
    requires Loaded(c, i0, i) && Known(c, i0) && |i.Keys| + 1 > 4096
    ensures !(Room(c, i0) && c.maxItems <= 1024)
  {
    assert Look(MetricsKey, 0);
    EntriesLimit(c, i, i.Keys);
  }

  lemma SelfKept(c: Settings, i: MetricImage)
    requires Known(c, i)
    ensures Kept(c, i, i)
  {
  }

  // ---------- what an opening may answer ----------

  /** A move that was journalled, and whose control file was never written: no opening finishes it. */
  ghost predicate Halfway(i: MetricImage) { Journal in i && Json !in i }

  /** The control files let an opening through. */
  ghost predicate Accepts(c: Settings, i: MetricImage) {
    && !TornStage(i) && !Halfway(i) && i.Keys != {Pending}
    && (c.version == 2 ==> Pending !in i && !Disagree(c, i))
  }

  /** How opening a known directory can end, and what each end tells about the directory. */
  ghost predicate Explains(err: OpenError, c: Settings, i: MetricImage) {
    match err
    case Opened => Accepts(c, i) && RecordsReadable(i) && Room(c, i)
    case Io => true
    case TooMany => !(Room(c, i) && c.maxItems <= 1024)
    case PendingAmbiguous => c.version == 2 && Pending in i
    case ControlUnavailable => Halfway(i)
    case JournalUnsafe => exists k :: k in i && !Short(i[k])
    case MissingControl => c.version == 1 && i.Keys == {Pending}
    case Ambiguous => c.version == 2 && Disagree(c, i)
    case StageConflict => TornStage(i)
    case Unsafe => !RecordsReadable(i)
    case OverBudget => !Room(c, i)
    case _ => false
  }

  /** What loading the control files alone tells. */
  ghost predicate Loading(err: OpenError, c: Settings, i: MetricImage) {
    if err.Opened? then Accepts(c, i) else Explains(err, c, i)
  }

  /**
  Opening a directory in which a move is journalled, readable and within budget, with no
  torn stage: the move is finished if and only if the control file is there.
  */
  lemma MoveFinishesIff(c: Settings, i: MetricImage, err: OpenError)
    requires Known(c, i) && c.version == 2 && Journal in i && Explains(err, c, i) && !err.Io?
    requires !TornStage(i) && RecordsReadable(i) && Room(c, i) && c.maxItems <= 1024 && forall k :: k in i ==> Short(i[k])
    ensures err.Opened? <==> Json in i
    ensures err.ControlUnavailable? <==> Json !in i
  {
  }

  /**
  A move that cannot be finished.  The version 1 agent stopped between its two first
  control copies; the move was journalled, and the agent stopped again.  Before the
  journal an opening could finish the move, and after it none can.
  */
  lemma HalfwayReached(c: Settings)
    requires c.version == 2 && ScopeHash(c.scope) && ScopeHash(c.legacy) && c.scope != c.legacy
    ensures var i: MetricImage := map[Backup := Whole(Manifest(1, c.legacy, 1))];
            var j := Replaced(i, JournalNext, Journal, Move(c.legacy, c.scope, 1));
            && ReserveCut(map[], Manifest(1, c.legacy, 1), i)
            && Known(c, i) && Accepts(c, i)
            && ScopeCut(i, JournalNext, Journal, Move(c.legacy, c.scope, NextOf(i)), j)
            && Known(c, j) && Halfway(j) && Explains(ControlUnavailable, c, j) && !Explains(Opened, c, j)
  {
    var i: MetricImage := map[Backup := Whole(Manifest(1, c.legacy, 1))];
    var j := Replaced(i, JournalNext, Journal, Move(c.legacy, c.scope, 1));
    assert i == Reserved1(map[], Manifest(1, c.legacy, 1));
    assert Inv(i, 1, c.legacy);
    assert NextOf(i) == 1 == NextOf(j);
    assert Migrating(j, c.legacy, c.scope);
    assert FormerOf(c, j) == c.legacy;
  }
}
