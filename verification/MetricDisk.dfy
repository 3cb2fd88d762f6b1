/**
The metrics spool itself: records in the order they were put, delivered from the front.
*/
module MetricDisk {
  import opened Keys
  import opened Storage
  import opened SpoolAccounts
  import opened SpoolNames
  import opened MetricSpool
  import opened MetricMigration
  import opened MetricAccounts
  import opened MetricOpening

  const PAYLOAD_LIMIT: nat := 4 * 0x10_0000

  /** A batch offered, with its compact encoding. */
  datatype Submission = Submission(wellFormed: bool, length: nat, compact: string)

  datatype PutResult = PutRefused | Full | Exhausted | PutFailed | Stored(n: nat)

  /** Done, or an error that changed nothing, or an error in the middle of writing. */
  datatype Effect = Done | Untouched | Broken

  datatype Peek = PeekRefused | PeekFailed | Waiting | Item(n: nat, data: string)

  class MetricDisk {
    const dir: Directory<MetricName, MetricFile>
    const settings: Settings
    var next: nat
    var names: seq<nat>
    var bytes: int
    var count: int
    var corrupt: nat
    var closed: bool

    constructor (dir: Directory<MetricName, MetricFile>, settings: Settings)
      ensures this.dir == dir && this.settings == settings
      ensures names == [] && bytes == Overhead(settings) && count == 0 && corrupt == 0 && !closed
    {
      this.dir, this.settings := dir, settings;
      next, names, bytes, count, corrupt, closed := 0, [], Overhead(settings), 0, 0, false;
    }

    function Memory(): MetricIndex
      reads this
    {
      MetricIndex(next, names, bytes, count, corrupt)
    }

    ghost predicate Valid()
      reads this, dir
    {
      dir.Settled() && Good(settings, dir.Image(), Memory())
    }

    /** The queue users of the spool see. */
    ghost function Contents(): Fifo
      reads this, dir
      requires |dir.views| > 0
    {
      Logical(dir.Image())
    }

    lemma SettledSurvivors()
      requires dir.Settled()
      ensures forall i :: Survivor(dir.views, i) <==> i == dir.Image()
    {
      forall i
        ensures Survivor(dir.views, i) <==> i == dir.Image()
      {
        SettledSurvivor(dir.views[0], i);
        assert dir.views == [dir.views[0]];
      }
    }

    /** Through an exclusive stage; whatever fails, the stage is removed again if that succeeds. */
    method Write(target: MetricName, value: MetricFile) returns (ok: bool)
      requires dir.Settled() && Pending !in dir.Image() && target != Pending
      modifies dir
      ensures ok ==> dir.Settled() && dir.Image() == Replaced(old(dir.Image()), Pending, target, value)
      ensures dir.faults >= old(dir.faults) && (ok <==> dir.faults == old(dir.faults))
      ensures |dir.views| > 0
      ensures !ok && dir.faults == old(dir.faults) + 1 ==> Pending !in dir.Now()
      ensures forall i :: Survivor(dir.views, i) ==> ReplaceCut(old(dir.Image()), Pending, target, value, i)
    {
      ghost var before := dir.Now();
      ghost var i0 := dir.Image();
      ok := dir.Fill(Pending, value, true);
      if ok {
        ghost var filled := dir.Image();
        assert filled == i0[Pending := Whole(value)];
        assert Moved(filled, Pending, target) == Replaced(i0, Pending, target, value);
        var moved;
        moved, ok := dir.Commit(Pending, target);
      }
      if !ok && Pending in dir.Now() {
        Discard(before, i0, target, value);
      }
    }

    method Discard(ghost before: map<MetricName, Cell<MetricFile>>, ghost i0: MetricImage,
                   ghost target: MetricName, ghost value: MetricFile)
      requires |dir.views| > 0 && Pending in dir.Now() && Pending !in before && dir.Now() - {Pending} == before
      requires AllDurable(before) && i0 == Files(before)
      requires forall i :: Survivor(dir.views, i) ==> ReplaceCut(i0, Pending, target, value, i)
      modifies dir
      ensures |dir.views| > 0 && dir.faults >= old(dir.faults) && (dir.faults == old(dir.faults) ==> Pending !in dir.Now())
      ensures forall i :: Survivor(dir.views, i) ==> ReplaceCut(i0, Pending, target, value, i)
    {
      ghost var views := dir.views;
      var removed := dir.Remove(Pending);
      forall i | Survivor(dir.views, i)
        ensures ReplaceCut(i0, Pending, target, value, i)
      {
        var k :| 0 <= k < |dir.views| && Leaves(dir.views[k], i);
        if k < |views| {
          assert Leaves(views[k], i);
        } else {
          assert i == Files(before);
        }
      }
    }

    /** The backup first, then the control file. */
    method SaveManifest(n: nat) returns (ok: bool)
      requires dir.Settled() && Pending !in dir.Image()
      modifies dir
      ensures dir.faults >= old(dir.faults) && (ok <==> dir.faults == old(dir.faults))
      ensures var m := Manifest(settings.version, settings.scope, n);
              && (ok ==> dir.Settled() && dir.Image() == Reserved(old(dir.Image()), m))
              && |dir.views| > 0
              && forall i :: Survivor(dir.views, i) ==> ReserveCut(old(dir.Image()), m, i)
    {
      var m := Manifest(settings.version, settings.scope, n);
      ok := Write(Backup, m);
      if ok {
        ok := Write(Json, m);
      }
    }

    /** A batch is stored under the next number, or the caller is told why not. */
    method Put(cancelled: bool, s: Submission) returns (r: PutResult)
      requires Valid()
      modifies this, dir
      ensures r == PutRefused <==> cancelled || old(closed) || !s.wellFormed || s.length > PAYLOAD_LIMIT
      ensures r == Full <==> (&& !r.PutRefused?
                              && (old(count) >= settings.maxItems
                                  || old(bytes) + Charge(RecordSize(s.compact)) > settings.maxBytes))
      ensures r == Exhausted <==> !r.PutRefused? && !r.Full? && old(next) == LAST
      ensures r.PutRefused? || r.Full? || r.Exhausted? ==>
                Valid() && dir.views == old(dir.views) && Memory() == old(Memory()) && closed == old(closed)
      ensures r.Stored? ==> Valid() && r.n == old(next) && !closed && Contents() == Append(old(Contents()), s.compact)
      ensures r.Stored? ==> names == old(names) + [r.n]
      ensures r.PutFailed? ==> closed
      ensures dir.faults >= old(dir.faults) && (r.PutFailed? <==> dir.faults > old(dir.faults))
      ensures |dir.views| > 0
      ensures r.Stored? || r.PutFailed? ==>
                forall i :: Survivor(dir.views, i)
                  ==> PutCut(old(dir.Image()), settings.version, settings.scope, s.compact, i)
    {
      if cancelled || closed || !s.wellFormed || s.length > PAYLOAD_LIMIT {
        return PutRefused;
      }
      var cost := Charge(RecordSize(s.compact));
      if count >= settings.maxItems || bytes + cost > settings.maxBytes {
        return Full;
      }
      if next == LAST {
        return Exhausted;
      }
      var n := next;
      var ok := Store(s.compact);
      return if ok then Stored(n) else PutFailed;
    }

    /** Reserve a number and write the record under it. */
    method Store(data: string) returns (ok: bool)
      requires Valid() && !closed && next != LAST
      requires count < settings.maxItems && bytes + Charge(RecordSize(data)) <= settings.maxBytes
      modifies this, dir
      ensures closed == !ok
      ensures dir.faults >= old(dir.faults) && (ok <==> dir.faults == old(dir.faults))
      ensures ok ==> Valid() && Contents() == Append(old(Contents()), data) && names == old(names) + [old(next)]
      ensures |dir.views| > 0
      ensures forall i :: Survivor(dir.views, i) ==> PutCut(old(dir.Image()), settings.version, settings.scope, data, i)
    {
      ghost var x := Memory();
      GoodFacts(settings, dir.Image(), x);
      NextBounded(settings, dir.Image(), x);
      PutGood(settings, dir.Image(), x, data);
      var n := next;
      ok := StoreBoth(n, data);
      if ok {
        NoteStored(Charge(RecordSize(data)));
        assert Memory() == MetricIndex(x.next + 1, x.names + [x.next], x.bytes + Charge(RecordSize(data)), x.count + 1, x.corrupt);
      } else {
        next := next + 1;
        closed := true;
      }
    }

    method NoteStored(cost: nat)
      modifies `next, `names, `count, `bytes
      ensures Memory() == MetricIndex(old(next) + 1, old(names) + [old(next)], old(bytes) + cost, old(count) + 1, corrupt)
    {
      names := names + [next];
      next := next + 1;
      count := count + 1;
      bytes := bytes + cost;
    }

    method StoreBoth(n: nat, data: string) returns (ok: bool)
      requires dir.Settled() && Pending !in dir.Image() && n == NextOf(dir.Image())
      modifies dir
      ensures dir.faults >= old(dir.faults) && (ok <==> dir.faults == old(dir.faults))
      ensures ok ==> dir.Settled() && dir.Image() == MetricSpool.Put(old(dir.Image()), settings.version, settings.scope, data)
      ensures |dir.views| > 0
      ensures forall i :: Survivor(dir.views, i) ==> PutCut(old(dir.Image()), settings.version, settings.scope, data, i)
    {
      ok := SaveManifest(n + 1);
      if ok {
        ok := Write(Rec(n), Payload(data));
      }
    }

    /** Only the front is acknowledged, it is unless a call fails, and then it is gone for good. */
    method Ack(cancelled: bool, n: nat) returns (e: Effect)
      requires Valid()
      modifies this, dir
      ensures e.Done? ==> !cancelled && !closed && old(names) != [] && old(names)[0] == n && names == old(names)[1..]
      ensures e.Done? ==> Valid() && Contents() == Without(old(Contents()), n)
      ensures e.Untouched? ==> dir.views == old(dir.views) && Memory() == old(Memory()) && (!dir.halted ==> Valid())
      ensures dir.faults >= old(dir.faults)
      ensures e.Done? <==> !cancelled && !old(closed) && old(names) != [] && old(names)[0] == n && dir.faults == old(dir.faults)
      ensures closed == (old(closed) || e.Broken?)
      ensures |dir.views| > 0
      ensures e.Broken? ==> forall i :: Survivor(dir.views, i) ==> AckCut(old(dir.Image()), n, i)
    {
      if cancelled || closed || names == [] || names[0] != n {
        return Untouched;
      }
      AckGood(settings, dir.Image(), Memory());
      var size := Size(dir.Read(Rec(n)));
      var removed, ok := dir.Drop(Rec(n));
      if !removed {
        return Untouched;
      }
      if !ok {
        closed := true;
        return Broken;
      }
      ForgetHead(size);
      return Done;
    }

    method ForgetHead(size: nat)
      requires names != []
      modifies `names, `count, `bytes
      ensures Memory() == WithoutHead(old(Memory()), size)
    {
      names := names[1..];
      count := count - 1;
      bytes := bytes - Charge(size);
    }

    /**
    Peek at the front.  Records that no longer decode are kept aside first; they keep
    their space and their place in the count, and cost no other record anything.  Without a
    cancellation, of which the caller is asked before every look, an open spool gives its
    front or says that there is none, unless a call fails or a front is too long to read.
    */
    method Next(cancels: nat -> bool) returns (p: Peek)
      requires Valid()
      modifies this, dir
      ensures p.Item? ==> (&& p.n in old(Contents()).recs && old(Contents()).recs[p.n] == p.data
                           && (forall m :: m in old(Contents()).recs ==> p.n <= m)
                           && names != [] && names[0] == p.n && !closed)
      ensures p.PeekRefused? ==> closed || exists k :: cancels(k)
      ensures p.PeekFailed? ==> dir.faults > old(dir.faults) || !RecordsReadable(old(dir.Image()))
      ensures dir.faults >= old(dir.faults) && (!p.PeekFailed? ==> dir.faults == old(dir.faults))
      ensures p.Waiting? ==> old(Contents()).recs == map[]
      ensures p.Item? || p.Waiting? || p.PeekRefused? ==>
                Valid() && Contents() == old(Contents()) && count == old(count) && bytes == old(bytes)
      ensures closed == old(closed) && next == old(next)
      ensures |dir.views| > 0
      ensures forall i :: Survivor(dir.views, i) ==> Logical(i) == old(Contents())
    {
      SettledSurvivors();
      var rounds := 0;
      while true
        invariant dir.faults == old(dir.faults)
        invariant Valid() && Contents() == old(Contents())
        invariant forall n: nat :: Rec(n) in dir.Image() ==> Rec(n) in old(dir.Image()) && dir.Image()[Rec(n)] == old(dir.Image())[Rec(n)]
        invariant closed == old(closed) && next == old(next) && count == old(count) && bytes == old(bytes)
        invariant forall i :: Survivor(dir.views, i) ==> Logical(i) == old(Contents())
        decreases |names|
      {
        if cancels(rounds) || closed {
          return PeekRefused;
        }
        rounds := rounds + 1;
        HeadOldest(settings, dir.Image(), Memory());
        if names == [] {
          return Waiting;
        }
        var file := dir.Read(Rec(names[0]));
        if !Readable(file) {
          assert Consulted(Rec(names[0]));
          return PeekFailed;
        }
        if IsPayload(file) {
          return Item(names[0], file.value.data);
        }
        var e := QuarantineHead();
        if !e.Done? {
          return PeekFailed;
        }
      }
    }

    method QuarantineHead() returns (e: Effect)
      requires Valid() && names != [] && Rec(names[0]) in dir.Image() && !IsPayload(dir.Image()[Rec(names[0])])
      modifies this, dir
      ensures e.Done? ==> Valid() && names == old(names)[1..] && Contents() == old(Contents())
      ensures e.Done? ==> dir.Image() == Moved(old(dir.Image()), Rec(old(names)[0]), Bad(old(names)[0]))
      ensures dir.faults >= old(dir.faults) && (e.Done? <==> dir.faults == old(dir.faults))
      ensures e.Done? ==> corrupt == old(corrupt) + 1 && count == old(count) && bytes == old(bytes)
      ensures closed == old(closed) && next == old(next)
      ensures |dir.views| > 0
      ensures forall i :: Survivor(dir.views, i) ==> Logical(i) == old(Contents())
    {
      SettledSurvivors();
      AsideGood(settings, dir.Image(), Memory());
      var n := names[0];
      var moved, ok := dir.Commit(Rec(n), Bad(n));
      if moved { corrupt := corrupt + 1; }
      if !ok {
        return if moved then Broken else Untouched;
      }
      names := names[1..];
      return Done;
    }

    method Close()
      modifies `closed
      ensures closed
    {
      closed := true;
    }

    // ---------- opening ----------

    /** Settings an agent can have: scopes are hashes, and a spool is of version 1 or 2. */
    ghost predicate Configured()
    {
      settings.version in {1, 2} && ScopeHash(settings.scope) && ScopeHash(settings.legacy)
    }

    /** Nothing a crash may leave now holds other records, numbers or space than i0 did. */
    ghost predicate Lossless(i0: MetricImage)
      reads dir
    {
      |dir.views| > 0 && (Known(settings, i0) ==> forall i :: Survivor(dir.views, i) ==> Kept(settings, i0, i))
    }

    lemma MovingLossless(i0: MetricImage)
      requires dir.Settled() && Moving(settings, i0, dir.Image())
      ensures Lossless(i0)
    {
      SettledSurvivors();
      if Known(settings, i0) { MovingKept(settings, i0, dir.Image()); }
    }

    lemma LoadedLossless(i0: MetricImage)
      requires dir.Settled() && Loaded(settings, i0, dir.Image())
      ensures Lossless(i0)
    {
      SettledSurvivors();
      if Known(settings, i0) { LoadedKept(settings, i0, dir.Image()); }
    }

    lemma ListLossless(i0: MetricImage)
      requires dir.Settled() && i0 == dir.Image()
      ensures Lossless(i0)
    {
      SettledSurvivors();
      if Known(settings, i0) { SelfKept(settings, i0); }
    }

    /** An opening stops for I/O exactly when a call failed. */
    twostate predicate Reports(err: OpenError)
      reads dir
    {
      old(dir.faults) <= dir.faults && (err.Io? <==> old(dir.faults) < dir.faults)
    }

    /** Resume exactly the stage that was begun, or begin it; a stage is never truncated or removed. */
    method ScopeWrite(stage: MetricName, target: MetricName, value: MetricFile) returns (err: OpenError)
      requires dir.Settled() && stage != target
      modifies dir
      ensures Reports(err)
      ensures err.Opened? || err.Io? || err.StageConflict?
      ensures err.Opened? ==> dir.Settled() && dir.Image() == Replaced(old(dir.Image()), stage, target, value)
      ensures err.Opened? && stage in old(dir.Image()) ==> old(dir.Image())[stage] == Whole(value)
      ensures err.StageConflict? ==> (&& dir.views == old(dir.views) && dir.Settled()
                                      && stage in old(dir.Image()) && old(dir.Image())[stage] != Whole(value))
      ensures |dir.views| > 0
      ensures forall i :: Survivor(dir.views, i) ==> ScopeCut(old(dir.Image()), stage, target, value, i)
    {
      SettledSurvivors();
      ghost var i0 := dir.Image();
      if stage in dir.Now() {
        if dir.Read(stage) != Whole(value) {
          return StageConflict;
        }
      } else {
        var filled := dir.Fill(stage, value, true);
        if !filled { return Io; }
        assert dir.Image() == i0[stage := Whole(value)];
      }
      assert Moved(dir.Image(), stage, target) == Replaced(i0, stage, target, value);
      var moved, ok := dir.Commit(stage, target);
      return if ok then Opened else Io;
    }

    /** Backup, then control file, then the journal goes. */
    method FinishMigration(ghost i0: MetricImage, n: nat) returns (err: OpenError)
      requires dir.Settled() && Moving(settings, i0, dir.Image()) && Journal in dir.Image()
      requires Known(settings, i0) ==> n == NextOf(dir.Image())
      requires forall k :: k in {BackupNext, JsonNext} && k in dir.Image() ==> k in i0 && i0[k] == dir.Image()[k]
      modifies this`next, dir
      ensures Reports(err)
      ensures err.Opened? || err.Io? || err.StageConflict?
      ensures err.Opened? ==> dir.Settled() && next == n && (Known(settings, i0) ==> Completed(settings, i0, dir.Image()))
      ensures err.StageConflict? && Known(settings, i0) ==> TornStage(i0)
      ensures err.Opened? && Known(settings, i0) ==>
                forall k :: k in {BackupNext, JsonNext} && k in old(dir.Image()) ==> old(dir.Image())[k].Whole?
      ensures Lossless(i0)
    {
      next := n;
      ghost var i := dir.Image();
      MovingLossless(i0);
      if Known(settings, i0) { StagesTornOr(i0, i); }
      BackupSteps(i0, i, n);
      err := ScopeWrite(BackupNext, Backup, Manifest(2, settings.scope, n));
      if err.Opened? {
        err := FinishPrimary(i0, n);
      }
    }

    /** The control file, once the backup is rewritten; then the journal goes. */
    method FinishPrimary(ghost i0: MetricImage, n: nat) returns (err: OpenError)
      requires dir.Settled() && Journal in dir.Image()
      requires BackupNext !in dir.Image() && Backup in dir.Image() && dir.Image()[Backup] == Whole(Manifest(2, settings.scope, n))
      requires Known(settings, i0) ==> Moving(settings, i0, dir.Image()) && n == NextOf(dir.Image())
      requires Known(settings, i0) && JsonNext in dir.Image() ==>
                 dir.Image()[JsonNext] == Whole(Manifest(2, settings.scope, n)) || TornStage(i0)
      modifies dir
      ensures Reports(err)
      ensures err.Opened? || err.Io? || err.StageConflict?
      ensures err.Opened? ==> dir.Settled() && (Known(settings, i0) ==> Completed(settings, i0, dir.Image()))
      ensures err.StageConflict? && Known(settings, i0) ==> TornStage(i0)
      ensures err.Opened? && JsonNext in old(dir.Image()) ==> old(dir.Image())[JsonNext].Whole?
      ensures Lossless(i0)
    {
      ghost var j := dir.Image();
      JsonSteps(i0, j, n);
      err := ScopeWrite(JsonNext, Json, Manifest(2, settings.scope, n));
      if !err.Opened? { return; }
      if Known(settings, i0) {
        MovingDone(settings, i0, dir.Image());
        MovingKept(settings, i0, dir.Image());
      }
      var removed, ok := dir.Drop(Journal);
      return if ok then Opened else Io;
    }

    lemma StagesTornOr(i0: MetricImage, i: MetricImage)
      requires Moving(settings, i0, i) && Known(settings, i0)
      ensures forall k :: k in {BackupNext, JsonNext} && k in i ==> i[k].Torn? || i[k] == Whole(Manifest(2, settings.scope, NextOf(i)))
    {
      assert Look(MetricsKey, 0);
    }

    lemma BackupSteps(i0: MetricImage, i: MetricImage, n: nat)
      requires Moving(settings, i0, i) && Journal in i && (Known(settings, i0) ==> n == NextOf(i))
      ensures Known(settings, i0) ==>
                forall j :: ScopeCut(i, BackupNext, Backup, Manifest(2, settings.scope, n), j) ==>
                  Kept(settings, i0, j) && Moving(settings, i0, j) && NextOf(j) == n
    {
      if Known(settings, i0) {
        forall j | ScopeCut(i, BackupNext, Backup, Manifest(2, settings.scope, n), j)
          ensures Kept(settings, i0, j) && Moving(settings, i0, j) && NextOf(j) == n
        {
          MovingBackup(settings, i0, i, j);
          MovingKept(settings, i0, j);
        }
      }
    }

    lemma JsonSteps(i0: MetricImage, i: MetricImage, n: nat)
      requires Known(settings, i0) ==> Moving(settings, i0, i) && n == NextOf(i)
      requires Journal in i && BackupNext !in i && Backup in i && i[Backup] == Whole(Manifest(2, settings.scope, n))
      ensures Known(settings, i0) ==>
                forall j :: ScopeCut(i, JsonNext, Json, Manifest(2, settings.scope, n), j) ==>
                  Kept(settings, i0, j) && Moving(settings, i0, j) && NextOf(j) == n
    {
      if Known(settings, i0) {
        forall j | ScopeCut(i, JsonNext, Json, Manifest(2, settings.scope, n), j)
          ensures Kept(settings, i0, j) && Moving(settings, i0, j) && NextOf(j) == n
        {
          MovingJson(settings, i0, i, j);
          MovingKept(settings, i0, j);
        }
      }
    }

    /** One control copy against the journal; a copy that does not decode is passed over. */
    method CheckCopy(k: MetricName, former: string, n: nat) returns (err: OpenError, valid: bool)
      requires |dir.views| > 0
      ensures err.Opened? || err.ControlUnavailable? || err.MigrationConflict? || err.JournalUnsafe?
      ensures err.ControlUnavailable? ==> k !in dir.Now()
      ensures err.JournalUnsafe? ==> k in dir.Image() && !Short(dir.Image()[k])
      ensures err.MigrationConflict? ==> (&& k in dir.Image() && ManifestValid(dir.Image()[k])
                                          && !Fits(dir.Image()[k], former, settings.scope, n))
      ensures err.Opened? ==> k in dir.Image() && (valid <==> ManifestValid(dir.Image()[k]))
    {
      valid := false;
      if k !in dir.Now() {
        return ControlUnavailable, false;
      }
      var f := dir.Read(k);
      if !Short(f) {
        return JournalUnsafe, false;
      }
      if !ManifestValid(f) {
        return Opened, false;
      }
      if !Fits(f, former, settings.scope, n) {
        return MigrationConflict, false;
      }
      return Opened, true;
    }

    /** Take up a migration from its journal. */
    method ResumeMigration() returns (err: OpenError)
      requires dir.Settled() && settings.version == 2 && Journal in dir.Image()
      modifies this`next, dir
      ensures Reports(err)
      ensures err.Opened? ==> (&& dir.Settled()
                               && (Known(settings, old(dir.Image())) ==>
                                     && Completed(settings, old(dir.Image()), dir.Image())
                                     && next == NextOf(dir.Image())))
      ensures Lossless(old(dir.Image()))
      ensures Known(settings, old(dir.Image())) ==> Loading(err, settings, old(dir.Image())) || Pending in old(dir.Image())
      ensures !err.Opened? && !err.Io? && !err.StageConflict? ==> dir.views == old(dir.views)
      ensures forall o, s, n :: old(dir.Image())[Journal] == Whole(Move(o, s, n)) && s != settings.scope ==> err == MigrationMismatch
    {
      ghost var i0 := dir.Image();
      MovingResumed(settings, i0);
      MovingLossless(i0);
      var f := dir.Read(Journal);
      if !Short(f) {
        return JournalUnsafe;
      }
      if !(f.Whole? && f.value.Move? && f.value.next != 0 && ScopeHash(f.value.oldScope) && f.value.newScope == settings.scope) {
        return MigrationMismatch;
      }
      var first, second: bool;
      err, first := CheckCopy(Json, f.value.oldScope, f.value.next);
      if !err.Opened? { return; }
      err, second := CheckCopy(Backup, f.value.oldScope, f.value.next);
      if !err.Opened? { return; }
      if !first && !second {
        return MigrationAmbiguous;
      }
      err := FinishMigration(i0, f.value.next);
      if Known(settings, i0) && err.Opened? { KnownJournal(i0); }
    }

    lemma KnownJournal(i: MetricImage)
      requires Known(settings, i) && Journal in i && settings.version == 2
      ensures JournalNext !in i && Pending !in i
    {
    }

    /** Journal the move of a version 1 spool, then carry it out. */
    method BeginMigration(n: nat) returns (err: OpenError)
      requires dir.Settled() && Moving(settings, dir.Image(), dir.Image()) && settings.version == 2
      requires Journal !in dir.Image() && (Known(settings, dir.Image()) ==> n == NextOf(dir.Image()))
      modifies this`next, dir
      ensures Reports(err)
      ensures err.Opened? || err.Io? || err.StageConflict?
      ensures err.Opened? ==> (&& dir.Settled()
                               && (Known(settings, old(dir.Image())) ==>
                                     && Completed(settings, old(dir.Image()), dir.Image())
                                     && next == NextOf(dir.Image())))
      ensures Known(settings, old(dir.Image())) && err.StageConflict? ==> TornStage(old(dir.Image()))
      ensures Known(settings, old(dir.Image())) && err.Opened? ==> !TornStage(old(dir.Image()))
      ensures Lossless(old(dir.Image()))
    {
      ghost var i0 := dir.Image();
      MovingLossless(i0);
      JournalSteps(i0, n);
      err := ScopeWrite(JournalNext, Journal, Move(settings.legacy, settings.scope, n));
      if !err.Opened? { return; }
      err := FinishMigration(i0, n);
    }

    lemma JournalSteps(i0: MetricImage, n: nat)
      requires Moving(settings, i0, i0) && Journal !in i0 && (Known(settings, i0) ==> n == NextOf(i0))
      ensures forall j :: ScopeCut(i0, JournalNext, Journal, Move(settings.legacy, settings.scope, n), j) ==>
                Moving(settings, i0, j) && (Known(settings, i0) ==> Kept(settings, i0, j) && NextOf(j) == n)
      ensures Known(settings, i0) ==> BackupNext !in i0 && JsonNext !in i0
      ensures Known(settings, i0) && JournalNext in i0 ==>
                i0[JournalNext].Torn? || i0[JournalNext] == Whole(Move(settings.legacy, settings.scope, n))
    {
      forall j | ScopeCut(i0, JournalNext, Journal, Move(settings.legacy, settings.scope, n), j)
        ensures Moving(settings, i0, j) && (Known(settings, i0) ==> Kept(settings, i0, j) && NextOf(j) == n)
      {
        if Known(settings, i0) {
          MovingJournal(settings, i0, i0, j);
          MovingKept(settings, i0, j);
        }
      }
      if Known(settings, i0) { assert Look(MetricsKey, 0); }
    }

    /** The first control copies of a new directory. */
    method CreateControl() returns (err: OpenError)
      requires dir.Settled() && dir.Image() == map[]
      modifies this`next, dir
      ensures Reports(err)
      ensures err.Opened? || err.Io?
      ensures err.Opened? ==> dir.Settled() && Loaded(settings, map[], dir.Image()) && next == NextOf(dir.Image()) == 1
      ensures Lossless(map[])
    {
      forall j | ReserveCut(map[], Manifest(settings.version, settings.scope, 1), j)
        ensures Kept(settings, map[], j)
        ensures j == Reserved(map[], Manifest(settings.version, settings.scope, 1)) ==> Loaded(settings, map[], j)
      {
        FreshSafe(settings, j);
      }
      next := 1;
      var ok := SaveManifest(1);
      return if ok then Opened else Io;
    }

    /** Read the control copies without a journal. */
    method ReadControl() returns (err: OpenError)
      requires dir.Settled() && Configured() && Journal !in dir.Image()
      requires settings.version == 2 ==> Pending !in dir.Image()
      modifies this`next, dir
      ensures Reports(err)
      ensures err.Opened? ==> (&& dir.Settled() && Loaded(settings, old(dir.Image()), dir.Image())
                               && (Known(settings, old(dir.Image())) ==> next == NextOf(dir.Image())))
      ensures Lossless(old(dir.Image()))
      ensures Known(settings, old(dir.Image())) ==> Loading(err, settings, old(dir.Image()))
      ensures !err.Opened? && !err.Io? && !err.StageConflict? ==> dir.views == old(dir.views)
    {
      ghost var i0 := dir.Image();
      CopyRead(settings, i0);
      SettledSurvivors();
      if Known(settings, i0) { NoTornStage(i0); }
      assert Lossless(i0);
      var k := Backup;
      if Json in dir.Now() {
        var f := dir.Read(Json);
        if Short(f) && f.Whole? { k := Json; }
      }
      if k !in dir.Now() {
        if dir.Now() != map[] {
          assert exists n :: n in dir.Now();
          return MissingControl;
        }
        assert i0 == map[];
        err := CreateControl();
        return;
      }
      err := ReadCopy(k);
    }

    /** Read the control copy chosen, and move a version 1 spool if these settings say so. */
    method ReadCopy(k: MetricName) returns (err: OpenError)
      requires dir.Settled() && Configured() && Journal !in dir.Image()
      requires settings.version == 2 ==> Pending !in dir.Image()
      requires k in dir.Image() && k == if Json in dir.Image() && dir.Image()[Json].Whole? then Json else Backup
      modifies this`next, dir
      ensures Reports(err)
      ensures err.Opened? ==> (&& dir.Settled() && Loaded(settings, old(dir.Image()), dir.Image())
                               && (Known(settings, old(dir.Image())) ==> next == NextOf(dir.Image())))
      ensures Lossless(old(dir.Image()))
      ensures Known(settings, old(dir.Image())) ==> Loading(err, settings, old(dir.Image()))
      ensures !err.Opened? && !err.Io? && !err.StageConflict? ==> dir.views == old(dir.views)
    {
      ghost var i0 := dir.Image();
      CopyRead(settings, i0);
      ListLossless(i0);
      if Known(settings, i0) { NoTornStage(i0); }
      var raw := dir.Read(k);
      if !Short(raw) {
        return JournalUnsafe;
      }
      if !ManifestValid(raw) {
        return BadControl;
      }
      next := raw.value.next;
      if raw.value.version == settings.version {
        if raw.value.scope != settings.scope {
          return ScopeMismatch;
        }
        LoadedAsIs(settings, i0);
        return Opened;
      }
      if settings.version == 1 {
        return ScopeMismatch;
      }
      if raw.value.scope != settings.legacy {
        return Unverified;
      }
      if Backup !in dir.Now() || dir.Read(Backup) != raw {
        return Ambiguous;
      }
      MovingBegun(settings, i0);
      err := BeginMigration(next);
      if err.Opened? { LoadedCompleted(settings, i0, dir.Image()); }
    }

    lemma NoTornStage(i: MetricImage)
      requires Known(settings, i) && Journal !in i
      ensures BackupNext !in i && JsonNext !in i && (settings.version == 1 ==> JournalNext !in i)
      ensures Inv(i, settings.version, settings.scope) ==> !TornStage(i)
    {
    }

    /** Load the control copies, creating or moving them as needed. */
    method LoadManifest() returns (err: OpenError)
      requires dir.Settled() && Configured()
      modifies this`next, dir
      ensures Reports(err)
      ensures err.Opened? ==> (&& dir.Settled() && Loaded(settings, old(dir.Image()), dir.Image())
                               && (Known(settings, old(dir.Image())) ==> next == NextOf(dir.Image())))
      ensures Lossless(old(dir.Image()))
      ensures Known(settings, old(dir.Image())) ==> Loading(err, settings, old(dir.Image()))
      ensures !err.Opened? && !err.Io? && !err.StageConflict? ==> dir.views == old(dir.views)
    {
      ghost var i0 := dir.Image();
      SettledSurvivors();
      if settings.version == 2 && Pending in dir.Now() {
        return PendingAmbiguous;
      }
      if Journal in dir.Now() {
        if !Short(dir.Read(Journal)) {
          return JournalUnsafe;
        }
        if settings.version == 1 {
          return RequiresV2;
        }
        err := ResumeMigration();
        if err.Opened? { LoadedCompleted(settings, i0, dir.Image()); }
      } else {
        err := ReadControl();
      }
    }

    /** Count every record; keep aside those that do not decode. */
    method Scan(ghost i0: MetricImage) returns (err: OpenError)
      requires dir.Settled() && Loaded(settings, i0, dir.Image()) && (Known(settings, i0) ==> next == NextOf(dir.Image()))
      requires names == [] && bytes == Overhead(settings) && count == 0 && corrupt == 0
      modifies `names, `bytes, `count, `corrupt, dir
      ensures Reports(err)
      ensures err.Opened? ==> dir.Settled() && Scanning(settings, i0, dir.Image(), {}, Memory())
      ensures Lossless(i0)
      ensures err.Opened? || err.Io? || err.TooMany? || err.Unsafe? || err.Unexpected? || err.BadSequence? || err.PendingAmbiguous?
      ensures Known(settings, i0) ==> !err.Unexpected? && !err.BadSequence? && !err.PendingAmbiguous?
      ensures Known(settings, i0) && err.Unsafe? ==> !RecordsReadable(i0)
      ensures Known(settings, i0) && err.TooMany? ==> !(Room(settings, i0) && settings.maxItems <= 1024)
    {
      ghost var i := dir.Image();
      ScanStart(settings, i0, i, next);
      LoadedLossless(i0);
      var todo := dir.List();
      assert todo == i.Keys;
      if |todo| + 1 > 4096 {
        if Known(settings, i0) { LoadedEntries(settings, i0, i); }
        return TooMany;
      }
      while todo != {}
        invariant dir.Settled() && Scanning(settings, i0, dir.Image(), todo, Memory()) && next == old(next)
        invariant todo <= dir.Image().Keys && dir.faults == old(dir.faults)
        decreases todo
      {
        LoadedLossless(i0);
        var name :| name in todo;
        err := ScanEntry(i0, todo, name);
        if !err.Opened? { return; }
        todo := todo - {name};
      }
      LoadedLossless(i0);
      return Opened;
    }

    method ScanEntry(ghost i0: MetricImage, ghost todo: set<MetricName>, name: MetricName) returns (err: OpenError)
      requires dir.Settled() && Scanning(settings, i0, dir.Image(), todo, Memory())
      requires name in todo && todo <= dir.Image().Keys
      modifies `names, `bytes, `count, `corrupt, dir
      ensures Reports(err)
      ensures err.Opened? ==> dir.Settled() && Scanning(settings, i0, dir.Image(), todo - {name}, Memory())
      ensures err.Opened? ==> todo - {name} <= dir.Image().Keys
      ensures Lossless(i0)
      ensures err.Opened? || err.Io? || err.Unsafe? || err.Unexpected? || err.BadSequence? || err.PendingAmbiguous?
      ensures Known(settings, i0) ==> !err.Unexpected? && !err.BadSequence? && !err.PendingAmbiguous?
      ensures Known(settings, i0) && err.Unsafe? ==> !RecordsReadable(i0)
    {
      ghost var i := dir.Image();
      LoadedLossless(i0);
      ScanExpected(settings, i0, i, todo, Memory(), name);
      match name {
        case Json => ScanOther(settings, i0, i, todo, Memory(), name);
        case Backup => ScanOther(settings, i0, i, todo, Memory(), name);
        case Pending =>
          if settings.version == 2 {
            return PendingAmbiguous;
          }
          err := DropPending(i0, todo);
          return;
        case Rec(n) =>
          if n == 0 || n >= next {
            return BadSequence;
          }
          err := ScanRec(i0, todo, n);
          return;
        case Bad(n) =>
          if n == 0 || n >= next {
            return BadSequence;
          }
          var file := dir.Read(name);
          if !Readable(file) {
            ScanReadable(settings, i0, i, todo, Memory(), name);
            return Unsafe;
          }
          ScanBad(settings, i0, i, todo, Memory(), n);
          NoteFile(Size(file), []);
        case _ => return Unexpected;
      }
      return Opened;
    }

    method NoteFile(size: nat, more: seq<nat>)
      modifies `names, `bytes, `count, `corrupt
      ensures Memory() == WithFile(old(Memory()), size, more)
    {
      count := count + 1;
      bytes := bytes + Charge(size);
      names := names + more;
      if more == [] { corrupt := corrupt + 1; }
    }

    /** Version 1 removes a stage left behind. */
    method DropPending(ghost i0: MetricImage, ghost todo: set<MetricName>) returns (err: OpenError)
      requires dir.Settled() && Scanning(settings, i0, dir.Image(), todo, Memory()) && Pending in dir.Image()
      requires todo <= dir.Image().Keys
      modifies dir
      ensures Reports(err)
      ensures err.Opened? || err.Io? || err.Unsafe?
      ensures err.Opened? ==> dir.Settled() && dir.Image() == old(dir.Image()) - {Pending}
      ensures err.Opened? ==> Scanning(settings, i0, dir.Image(), todo - {Pending}, Memory())
      ensures Known(settings, i0) && err.Unsafe? ==> !RecordsReadable(i0)
      ensures Lossless(i0)
    {
      ghost var i := dir.Image();
      LoadedLossless(i0);
      SettledSurvivors();
      if !Readable(dir.Read(Pending)) {
        ScanReadable(settings, i0, i, todo, Memory(), Pending);
        return Unsafe;
      }
      ScanPending(settings, i0, i, todo, Memory());
      if Known(settings, i0) {
        LoadedKept(settings, i0, i);
        LoadedKept(settings, i0, i - {Pending});
      }
      var removed, ok := dir.Drop(Pending);
      return if ok then Opened else Io;
    }

    method ScanRec(ghost i0: MetricImage, ghost todo: set<MetricName>, n: nat) returns (err: OpenError)
      requires dir.Settled() && Scanning(settings, i0, dir.Image(), todo, Memory())
      requires Rec(n) in todo && todo <= dir.Image().Keys
      modifies `names, `bytes, `count, `corrupt, dir
      ensures Reports(err)
      ensures err.Opened? || err.Io? || err.Unsafe?
      ensures err.Opened? ==> dir.Settled() && Scanning(settings, i0, dir.Image(), todo - {Rec(n)}, Memory())
      ensures err.Opened? ==> todo - {Rec(n)} <= dir.Image().Keys
      ensures Known(settings, i0) && err.Unsafe? ==> !RecordsReadable(i0)
      ensures Lossless(i0)
    {
      ghost var i := dir.Image();
      LoadedLossless(i0);
      var file := dir.Read(Rec(n));
      if !Readable(file) {
        ScanReadable(settings, i0, i, todo, Memory(), Rec(n));
        return Unsafe;
      }
      if IsPayload(file) {
        ScanRecord(settings, i0, i, todo, Memory(), n);
        NoteFile(Size(file), [n]);
        return Opened;
      }
      ScanRotten(settings, i0, i, todo, Memory(), n);
      err := SetAside(i0, n);
      if err.Opened? { NoteFile(Size(file), []); }
    }

    method SetAside(ghost i0: MetricImage, n: nat) returns (err: OpenError)
      requires dir.Settled() && Loaded(settings, i0, dir.Image()) && Rec(n) in dir.Image()
      requires Loaded(settings, i0, Moved(dir.Image(), Rec(n), Bad(n)))
      modifies dir
      ensures Reports(err)
      ensures err.Opened? ==> dir.Settled() && dir.Image() == Moved(old(dir.Image()), Rec(n), Bad(n))
      ensures err.Opened? || err.Io?
      ensures Lossless(i0)
    {
      SettledSurvivors();
      if Known(settings, i0) {
        LoadedKept(settings, i0, dir.Image());
        LoadedKept(settings, i0, Moved(dir.Image(), Rec(n), Bad(n)));
      }
      var moved, ok := dir.Commit(Rec(n), Bad(n));
      return if ok then Opened else Io;
    }

    /**
    Open the spool.  Whatever directory runs of it, or of a version 1 agent before it,
    can have left comes back as the queue it denotes with an exact index, or is
    refused for a reason the directory shows; an error leaves that queue where it was.
    */
    method Open() returns (err: OpenError)
      requires dir.Settled() && Configured()
      requires names == [] && bytes == Overhead(settings) && count == 0 && corrupt == 0
      modifies this, dir
      ensures Reports(err)
      ensures err.Opened? && Known(settings, old(dir.Image())) ==> Valid() && Contents() == Logical(old(dir.Image()))
      ensures Lossless(old(dir.Image()))
      ensures Known(settings, old(dir.Image())) ==> Explains(err, settings, old(dir.Image()))
      ensures err.ControlUnavailable? ==> dir.views == old(dir.views)
      ensures closed == old(closed)
    {
      ghost var i0 := dir.Image();
      ListLossless(i0);
      var entries := dir.List();
      if |entries| + 1 > 4096 {
        if Known(settings, i0) { EntriesLimit(settings, i0, entries); }
        return TooMany;
      }
      err := LoadManifest();
      if err.Opened? {
        err := OpenRecords(i0);
      }
    }

    /** Count the records, and check both bounds. */
    method OpenRecords(ghost i0: MetricImage) returns (err: OpenError)
      requires dir.Settled() && Loaded(settings, i0, dir.Image()) && (Known(settings, i0) ==> next == NextOf(dir.Image()))
      requires names == [] && bytes == Overhead(settings) && count == 0 && corrupt == 0
      requires Known(settings, i0) ==> Accepts(settings, i0)
      modifies this, dir
      ensures Reports(err)
      ensures err.Opened? && Known(settings, i0) ==> Valid() && Contents() == Logical(i0)
      ensures Lossless(i0)
      ensures Known(settings, i0) ==> Explains(err, settings, i0)
      ensures closed == old(closed) && !err.ControlUnavailable?
    {
      err := Scan(i0);
      if err.Opened? {
        err := CheckBudget(i0);
      }
    }

    /** Both bounds, and a last sync. */
    method CheckBudget(ghost i0: MetricImage) returns (err: OpenError)
      requires dir.Settled() && Scanning(settings, i0, dir.Image(), {}, Memory())
      requires Known(settings, i0) ==> Accepts(settings, i0)
      modifies this, dir
      ensures Reports(err)
      ensures err.Opened? && Known(settings, i0) ==> Valid() && Contents() == Logical(i0)
      ensures Lossless(i0)
      ensures Known(settings, i0) ==> Explains(err, settings, i0)
      ensures closed == old(closed) && !err.ControlUnavailable?
    {
      if Known(settings, i0) {
        ScanEnd(settings, i0, dir.Image(), Memory());
      }
      LoadedLossless(i0);
      if bytes > settings.maxBytes || count > settings.maxItems {
        return OverBudget;
      }
      names := Sort(names);
      SettledSurvivors();
      var ok := dir.SyncDir();
      return if ok then Opened else Io;
    }
  }
}
