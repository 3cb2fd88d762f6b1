/**
Moving a version 1 metrics spool to a version 2 scope: a journal, two rewritten
control copies, and a stage for each, cut anywhere and taken up again.
*/
module MetricMigration {
  import opened Storage
  import opened SpoolAccounts
  import opened MetricSpool

  predicate HexDigit(c: char) { '0' <= c <= '9' || 'a' <= c <= 'f' || 'A' <= c <= 'F' }

  /** A scope is written as 32 bytes in hexadecimal. */
  predicate ScopeHash(s: string) { |s| == 64 && forall k :: 0 <= k < 64 ==> HexDigit(s[k]) }

  /** Version, scope and sequence are such that some agent could have written them. */
  predicate ManifestValid(f: File<MetricFile>) {
    f.Whole? && f.value.Manifest? && f.value.next > 0 && f.value.version in {1, 2} && ScopeHash(f.value.scope)
  }

  /** Control files are read up to 4 KiB. */
  predicate Short(f: File<MetricFile>) { f.Torn? ==> f.size <= 4096 }

  /** What an interrupted scopeWrite leaves. */
  ghost predicate ScopeCut(i: MetricImage, stage: MetricName, target: MetricName, value: MetricFile, j: MetricImage) {
    || j == i
    || (stage !in i && StageCut(i, stage, value, j))
    || j == Replaced(i, stage, target, value)
  }

  ghost predicate SameRecordFiles(i: MetricImage, j: MetricImage) {
    forall n: nat :: (Rec(n) in i <==> Rec(n) in j) && (Bad(n) in i <==> Bad(n) in j)
                     && (Rec(n) in i ==> i[Rec(n)] == j[Rec(n)]) && (Bad(n) in i ==> i[Bad(n)] == j[Bad(n)])
  }

  ghost predicate Staged(i: MetricImage, stage: MetricName, value: MetricFile) {
    stage in i ==> i[stage].Torn? || i[stage] == Whole(value)
  }

  /** Holds from the first stage to the removal of the journal. */
  ghost predicate Migrating(i: MetricImage, former: string, scope: string) {
    var n := NextOf(i);
    var v1, v2, tx := Manifest(1, former, n), Manifest(2, scope, n), Move(former, scope, n);
    && ScopeHash(former) && ScopeHash(scope) && 1 <= n <= LAST
    && Backup in i && (i[Backup] == Whole(v1) || i[Backup] == Whole(v2)) && Pending !in i
    && (Json in i ==>
          && (i[Json].Torn? || i[Json] == Whole(v1) || i[Json] == Whole(v2))
          && (i[Json] == Whole(v2) ==> i[Backup] == Whole(v2)))
    && (Journal in i ==> i[Journal] == Whole(tx) && JournalNext !in i)
    && (Journal !in i ==> i[Backup] == Whole(v1) && BackupNext !in i && JsonNext !in i)
    && Staged(i, JournalNext, tx) && Staged(i, BackupNext, v2) && Staged(i, JsonNext, v2)
    && (JsonNext in i ==> i[Backup] == Whole(v2))
    && (forall k :: k in i ==> !k.Stray?)
    && (forall m: nat :: Rec(m) in i ==> 1 <= m < n && Bad(m) !in i && (i[Rec(m)].Whole? ==> IsPayload(i[Rec(m)])))
    && (forall m: nat :: Bad(m) in i ==> 1 <= m < n)
  }

  /** A version 1 spool at rest: whatever its control file says, its backup says too. */
  ghost predicate Agreed(i: MetricImage, former: string) {
    Clean(i, 1, former) && Loads(i, Backup) && (Json in i && i[Json].Whole? ==> i[Backup] == i[Json])
  }

  lemma AgreedMigrating(i: MetricImage, former: string, scope: string)
    requires Agreed(i, former) && ScopeHash(former) && ScopeHash(scope)
    ensures Migrating(i, former, scope)
  {
    assert forall m: nat :: Below(i, m) ==> 1 <= m < NextOf(i);
  }

  lemma SameFilesSameRecords(i: MetricImage, j: MetricImage)
    requires SameRecordFiles(i, j)
    ensures Records(i) == Records(j)
  {
    SameRecords(i, j);
  }

  /** Staging the journal, and putting it in place. */
  lemma JournalCutSafe(i: MetricImage, former: string, scope: string, j: MetricImage)
    requires Migrating(i, former, scope) && Journal !in i
    requires ScopeCut(i, JournalNext, Journal, Move(former, scope, NextOf(i)), j)
    ensures Migrating(j, former, scope) && SameRecordFiles(i, j) && NextOf(j) == NextOf(i)
  {
    assert NextOf(j) == NextOf(i);
    assert SameRecordFiles(i, j);
  }

  /** Rewriting the backup. */
  lemma BackupCutSafe(i: MetricImage, former: string, scope: string, j: MetricImage)
    requires Migrating(i, former, scope) && Journal in i
    requires ScopeCut(i, BackupNext, Backup, Manifest(2, scope, NextOf(i)), j)
    ensures Migrating(j, former, scope) && SameRecordFiles(i, j) && NextOf(j) == NextOf(i)
    ensures j == Replaced(i, BackupNext, Backup, Manifest(2, scope, NextOf(i)))
            ==> Journal in j && BackupNext !in j && j[Backup] == Whole(Manifest(2, scope, NextOf(i)))
  {
    assert NextOf(j) == NextOf(i);
    assert SameRecordFiles(i, j);
  }

  /** Rewriting the control file. */
  lemma JsonCutSafe(i: MetricImage, former: string, scope: string, j: MetricImage)
    requires Migrating(i, former, scope) && Journal in i && i[Backup] == Whole(Manifest(2, scope, NextOf(i))) && BackupNext !in i
    requires ScopeCut(i, JsonNext, Json, Manifest(2, scope, NextOf(i)), j)
    ensures Migrating(j, former, scope) && SameRecordFiles(i, j) && NextOf(j) == NextOf(i)
    ensures j == Replaced(i, JsonNext, Json, Manifest(2, scope, NextOf(i)))
            ==> Journal in j && BackupNext !in j && JsonNext !in j && j[Json] == j[Backup] == Whole(Manifest(2, scope, NextOf(i)))
  {
    assert NextOf(j) == NextOf(i);
    assert SameRecordFiles(i, j);
  }

  /** Removing the journal completes the move. */
  lemma JournalRemoved(i: MetricImage, former: string, scope: string)
    requires Migrating(i, former, scope) && Journal in i && BackupNext !in i && JsonNext !in i
    requires Json in i && i[Json] == i[Backup] == Whole(Manifest(2, scope, NextOf(i)))
    ensures var j := i - {Journal};
            Clean(j, 2, scope) && Json in j && SameRecordFiles(i, j) && NextOf(j) == NextOf(i) && j[Json] == j[Backup]
  {
    var j := i - {Journal};
    assert forall m: nat :: Below(j, m) <==> 1 <= m < NextOf(i);
  }

  lemma RotMoving(i: MetricImage, former: string, scope: string, k: MetricName, j: MetricImage)
    requires Migrating(i, former, scope) && Rots(i, k, j) && !k.Backup?
    ensures Migrating(j, former, scope) && NextOf(j) == NextOf(i)
  {
    assert NextOf(j) == NextOf(i);
  }

  /** A record, or the control file, rots in the middle of a move. */
  lemma RotMigrating(i: MetricImage, former: string, scope: string, k: MetricName, j: MetricImage)
    requires Migrating(i, former, scope) && Rots(i, k, j) && !k.Backup?
    ensures Migrating(j, former, scope) && NextOf(j) == NextOf(i)
    ensures Logical(j) == if k.Rec? then Without(Logical(i), k.n) else Logical(i)
  {
    RotMoving(i, former, scope, k, j);
    if k.Rec? {
      assert Records(j) == Records(i) - {k.n};
    } else {
      SameRecords(i, j);
    }
  }
}
