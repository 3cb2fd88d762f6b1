/**
The logs spool itself: an in-memory index kept in step with a directory of record files.
*/
module LogDisk {
  import opened Keys
  import opened Storage
  import opened LogQueue
  import opened LogSpool
  import opened LogRecovery
  import opened SpoolAccounts
  import opened SpoolNames

  const PAYLOAD_LIMIT: nat := 4 * 0x10_0000

  /** A payload offered for admission, with its normalized encoding. */
  datatype Submission = Submission(id: Id, wellFormed: bool, length: nat, normalized: string)

  datatype PutResult = PutRefused | Full | PutFailed | Existing(n: nat) | Admitted(n: nat)
  /** Done, or an error that changed nothing, or an error in the middle of writing. */
  datatype Effect = Done | Untouched | Broken
  /** Why an opening stopped. */
  datatype OpenError = Opened | Io | BadStage | BadControl | TooMany | Unsafe | Unexpected | Duplicate | Conflict | OverBudget

  datatype Peek = PeekRefused | PeekFailed | Waiting | Item(n: nat, payload: string)

  // ---------- what the index says about the directory ----------

  ghost predicate Inverse(admissions: map<Id, nat>, owner: map<nat, Id>) {
    && (forall n :: n in owner ==> owner[n] in admissions && admissions[owner[n]] == n)
    && (forall id :: id in admissions ==> admissions[id] in owner && owner[admissions[id]] == id)
  }

  /** Names are the ready records in order; admissions lead to every record file. */
  ghost predicate Indexed(i: LogImage, names: seq<nat>, admissions: map<Id, nat>, owner: map<nat, Id>) {
    && (forall n: nat :: Lrec(n) in i <==> n in owner)
    && (forall n :: n in Records(i) ==> owner[n] == Records(i)[n].id)
    && Inverse(admissions, owner)
    && Increasing(names)
    && (forall n :: n in names ==> n in owner)
    && (forall n :: n in Records(i) ==> (n in names <==> Records(i)[n].ready))
  }

  /** Bytes never fall below what the records take. */
  ghost predicate Accounted(i: LogImage, next: nat, bytes: int, count: int, maxBytes: int, maxItems: nat) {
    && Overhead(maxItems) + Space(i, next) <= bytes <= maxBytes
    && Number(i, next) == count <= maxItems
  }

  /** With no rotten record the index is a function of the directory. */
  lemma IndexUnique(i: LogImage, names: seq<nat>, adm: map<Id, nat>, owner: map<nat, Id>,
                    names': seq<nat>, adm': map<Id, nat>, owner': map<nat, Id>)
    requires Indexed(i, names, adm, owner) && Indexed(i, names', adm', owner')
    requires forall n: nat :: Lrec(n) in i ==> IsRecord(i[Lrec(n)])
    ensures names == names' && adm == adm'
  {
    assert forall n: nat :: Lrec(n) in i <==> n in Records(i);
    IncreasingUnique(names, names');
    assert forall n :: n in owner ==> owner[n] == owner'[n];
    assert adm.Keys == adm'.Keys;
  }

  // ---------- steps of the index ----------

  /** An admission adds one record file and changes no other. */
  lemma PutRecords(i: LogImage, scope: string, r: LogRecord)
    requires Clean(i, scope)
    ensures var j, n := Put(i, scope, r), Current(i);
            && n !in Records(i) && Records(j) == Records(i)[n := r]
            && forall m: nat :: Lrec(m) in j <==> Lrec(m) in i || m == n
  {
    var j, n := Put(i, scope, r), Current(i);
    assert Lrec(n) !in i;
    assert Records(j) == Records(i)[n := r];
  }

  lemma PutIndexed(i: LogImage, scope: string, r: LogRecord, names: seq<nat>, adm: map<Id, nat>, owner: map<nat, Id>)
    requires Clean(i, scope) && Indexed(i, names, adm, owner)
    requires r.id !in adm && !r.ready
    ensures Indexed(Put(i, scope, r), names, adm[r.id := Current(i)], owner[Current(i) := r.id])
  {
    PutRecords(i, scope, r);
    assert Current(i) !in owner;
    PutInverse(adm, owner, Current(i), r.id);
  }

  lemma PutInverse(adm: map<Id, nat>, owner: map<nat, Id>, n: nat, id: Id)
    requires Inverse(adm, owner) && id !in adm && n !in owner
    ensures Inverse(adm[id := n], owner[n := id])
  {
  }

  lemma PutUnheld(i: LogImage, scope: string, id: Id, names: seq<nat>, adm: map<Id, nat>, owner: map<nat, Id>)
    requires Clean(i, scope) && Indexed(i, names, adm, owner) && id !in adm
    ensures !Holds(Logical(i), id)
  {
    CleanLogical(i, scope);
  }

  lemma PutAccounted(i: LogImage, scope: string, r: LogRecord, bytes: int, count: int, maxBytes: int, maxItems: nat)
    requires Clean(i, scope) && Accounted(i, Current(i), bytes, count, maxBytes, maxItems)
    requires count < maxItems && bytes + Charge(RecordSize(r)) <= maxBytes
    ensures Accounted(Put(i, scope, r), Current(i) + 1, bytes + Charge(RecordSize(r)), count + 1, maxBytes, maxItems)
  {
    var n := Current(i);
    var j := Put(i, scope, r);
    assert Lrec(n) !in i;
    TotalFrame(SpaceOf(i), SpaceOf(j), n);
    TotalFrame(OneEach(i), OneEach(j), n);
  }

  lemma ActivateIndexed(i: LogImage, scope: string, n: nat, names: seq<nat>, adm: map<Id, nat>, owner: map<nat, Id>)
    requires Clean(i, scope) && Indexed(i, names, adm, owner) && n in Records(i) && n !in names
    ensures var j := Replaced(i, ReplacePending, Lrec(n), Record(Records(i)[n].(ready := true)));
            Indexed(j, Sort(names + [n]), adm, owner)
  {
    var j := Replaced(i, ReplacePending, Lrec(n), Record(Records(i)[n].(ready := true)));
    ActivateDoneInv(i, scope, n);
    assert forall m :: m in names + [n] <==> m in names || m == n;
  }

  lemma ActivateAccounted(i: LogImage, scope: string, n: nat, bytes: int, count: int, maxBytes: int, maxItems: nat)
    requires Clean(i, scope) && n in Records(i)
    requires Accounted(i, Current(i), bytes, count, maxBytes, maxItems)
    ensures var j := Replaced(i, ReplacePending, Lrec(n), Record(Records(i)[n].(ready := true)));
            Current(j) == Current(i) && Accounted(j, Current(i), bytes, count, maxBytes, maxItems)
  {
    var j := Replaced(i, ReplacePending, Lrec(n), Record(Records(i)[n].(ready := true)));
    TotalMonotone(SpaceOf(j), SpaceOf(i), Current(i));
    TotalFrame(OneEach(i), OneEach(j), Current(i));
  }

  /** What is left of the index once record n is gone. */
  lemma RemoveIndexed(i: LogImage, j: LogImage, n: nat, names: seq<nat>, adm: map<Id, nat>, owner: map<nat, Id>)
    requires Indexed(i, names, adm, owner) && names != [] && names[0] == n && n in owner
    requires forall m: nat :: Lrec(m) in j <==> Lrec(m) in i && m != n
    requires forall m: nat :: Lrec(m) in j ==> j[Lrec(m)] == i[Lrec(m)]
    ensures Indexed(j, names[1..], adm - {owner[n]}, owner - {n})
  {
    assert names == [names[0]] + names[1..];
    assert n !in names[1..];
    assert forall m :: m in names[1..] <==> m in names && m != n;
  }

  lemma RemoveAccounted(i: LogImage, j: LogImage, n: nat, next: nat, bytes: int, count: int, maxBytes: int, maxItems: nat)
    requires Accounted(i, next, bytes, count, maxBytes, maxItems) && n < next && Lrec(n) in i
    requires forall m: nat :: Lrec(m) in j <==> Lrec(m) in i && m != n
    requires forall m: nat :: Lrec(m) in j ==> j[Lrec(m)] == i[Lrec(m)]
    ensures Accounted(j, next, bytes - Charge(Size(i[Lrec(n)])), count - 1, maxBytes, maxItems)
  {
    TotalChange(SpaceOf(i), SpaceOf(j), n, next);
    TotalChange(OneEach(i), OneEach(j), n, next);
  }

  /** The in-memory index. */
  datatype Index = Index(next: nat, names: seq<nat>, admissions: map<Id, nat>, bytes: int, count: int)

  /** The index and the directory agree, and the directory is at rest. */
  ghost predicate Coherent(key: nat, c: Limits, i: LogImage, x: Index, owner: map<nat, Id>) {
    && Clean(i, c.scope)
    && x.next == Current(i)
    && Indexed(i, x.names, x.admissions, owner)
    && Accounted(i, x.next, x.bytes, x.count, c.maxBytes, c.maxItems)
  }

  ghost predicate Good(c: Limits, i: LogImage, x: Index, owner: map<nat, Id>) {
    forall k: nat {:trigger Look(SpoolKey, k)} :: Look(SpoolKey, k) ==> Coherent(k, c, i, x, owner)
  }

  lemma PutGood(c: Limits, i: LogImage, x: Index, owner: map<nat, Id>, r: LogRecord)
    requires Good(c, i, x, owner) && r.id !in x.admissions && !r.ready && x.next + 1 < SEQ_LIMIT
    requires x.count < c.maxItems && x.bytes + Charge(RecordSize(r)) <= c.maxBytes
    ensures Good(c, Put(i, c.scope, r),
                 Index(x.next + 1, x.names, x.admissions[r.id := x.next], x.bytes + Charge(RecordSize(r)), x.count + 1),
                 owner[x.next := r.id])
    ensures Logical(Put(i, c.scope, r)) == Admit(Logical(i), r.id, r.payload)
  {
    assert Look(SpoolKey, 0);
    assert Succ(x.next) == x.next + 1;
    PutUnheld(i, c.scope, r.id, x.names, x.admissions, owner);
    PutIndexed(i, c.scope, r, x.names, x.admissions, owner);
    PutAccounted(i, c.scope, r, x.bytes, x.count, c.maxBytes, c.maxItems);
    PutDone(i, c.scope, r);
  }

  lemma PutDone(i: LogImage, scope: string, r: LogRecord)
    requires Clean(i, scope) && Current(i) + 1 < SEQ_LIMIT && !r.ready && !Holds(Logical(i), r.id)
    ensures var j := Put(i, scope, r);
            Clean(j, scope) && Current(j) == Current(i) + 1 && Logical(j) == Admit(Logical(i), r.id, r.payload)
  {
    assert Succ(Current(i)) == Current(i) + 1;
    PutCutSafe(i, scope, r, Put(i, scope, r));
  }

  lemma FreshId(c: Limits, i: LogImage, x: Index, owner: map<nat, Id>, id: Id)
    requires Good(c, i, x, owner) && id !in x.admissions
    ensures !Holds(Logical(i), id)
  {
    assert Look(SpoolKey, 0);
    CleanLogical(i, c.scope);
  }

  lemma ActivateGood(c: Limits, i: LogImage, x: Index, owner: map<nat, Id>, n: nat)
    requires Good(c, i, x, owner) && n in Records(i) && n !in x.names
    ensures var j := Replaced(i, ReplacePending, Lrec(n), Record(Records(i)[n].(ready := true)));
            Good(c, j, x.(names := Sort(x.names + [n])), owner)
            && Logical(j) == LogQueue.Activate(Logical(i), Records(i)[n].id)
  {
    assert Look(SpoolKey, 0);
    ActivateDone(i, c.scope, n);
    ActivateIndexed(i, c.scope, n, x.names, x.admissions, owner);
    ActivateAccounted(i, c.scope, n, x.bytes, x.count, c.maxBytes, c.maxItems);
  }

  /** An identity with no unready record activates nothing. */
  lemma ActivateNothing(c: Limits, i: LogImage, x: Index, owner: map<nat, Id>, id: Id)
    requires Good(c, i, x, owner) && (id in x.admissions ==> x.admissions[id] in x.names)
    ensures LogQueue.Activate(Logical(i), id) == Logical(i)
  {
    assert Look(SpoolKey, 0);
    CleanLogical(i, c.scope);
    assert LogQueue.Activate(Logical(i), id).recs == Logical(i).recs;
  }

  lemma NextIsCurrent(c: Limits, i: LogImage, x: Index, owner: map<nat, Id>)
    requires Good(c, i, x, owner)
    ensures x.next == Current(i) && Pending !in i
  {
    assert Look(SpoolKey, 0);
  }

  /** What the methods may take from a good index. */
  lemma GoodFacts(c: Limits, i: LogImage, x: Index, owner: map<nat, Id>)
    requires Good(c, i, x, owner)
    ensures x.next == Current(i) && Pending !in i && ReplacePending !in i
    ensures forall n :: n in x.names ==> Lrec(n) in i
    ensures forall id :: id in x.admissions ==> Lrec(x.admissions[id]) in i
    ensures forall id :: id in x.admissions && x.admissions[id] in Records(i) && x.admissions[id] !in x.names ==>
              Unready(i, x.admissions[id], id)
  {
    assert Look(SpoolKey, 0);
  }

  lemma {:induction false} InverseCount(admissions: map<Id, nat>, owner: map<nat, Id>)
    requires Inverse(admissions, owner)
    ensures |admissions| == |owner|
    decreases |owner|
  {
    if owner == map[] {
      assert forall id :: id in admissions ==> admissions[id] in owner;
      assert admissions == map[];
    } else {
      var n :| n in owner;
      var fewer, rest := admissions - {owner[n]}, owner - {n};
      assert rest.Keys == owner.Keys - {n} && fewer.Keys == admissions.Keys - {owner[n]};
      InverseCount(fewer, rest);
    }
  }

  /** The byte count is an upper bound of what the records take, and the count is that of the admissions. */
  lemma BudgetBound(c: Limits, i: LogImage, x: Index, owner: map<nat, Id>)
    requires Good(c, i, x, owner)
    ensures Overhead(c.maxItems) + Space(i, x.next) <= x.bytes <= c.maxBytes
    ensures x.count == Number(i, x.next) == |x.admissions| <= c.maxItems
  {
    assert Look(SpoolKey, 0);
    OwnedBelow(c, i, x, owner);
    AdmissionCount(i, x.admissions, owner, x.next);
  }

  lemma AdmissionCount(i: LogImage, admissions: map<Id, nat>, owner: map<nat, Id>, next: nat)
    requires Inverse(admissions, owner)
    requires forall n :: n in owner ==> n < next
    requires forall n: nat :: n in owner <==> Lrec(n) in i
    ensures Number(i, next) == |admissions|
  {
    CountMembers(owner.Keys, next);
    InverseCount(admissions, owner);
    TotalFrame(Member(owner.Keys), OneEach(i), next);
  }

  lemma OwnedBelow(c: Limits, i: LogImage, x: Index, owner: map<nat, Id>)
    requires Coherent(0, c, i, x, owner)
    ensures forall n :: n in owner ==> n < x.next
    ensures forall n: nat :: n in owner <==> Lrec(n) in i
    ensures Inverse(x.admissions, owner)
    ensures Overhead(c.maxItems) + Space(i, x.next) <= x.bytes <= c.maxBytes && x.count == Number(i, x.next) <= c.maxItems
  {
  }

  ghost predicate Unready(i: LogImage, n: nat, id: Id) {
    n in Records(i) && Records(i)[n].id == id && !Records(i)[n].ready
  }

  function WithoutHead(x: Index, id: Id, size: nat): Index
    requires x.names != []
  {
    Index(x.next, x.names[1..], x.admissions - {id}, x.bytes - Charge(size), x.count - 1)
  }

  lemma AckGood(c: Limits, i: LogImage, x: Index, owner: map<nat, Id>, n: nat)
    requires Good(c, i, x, owner) && x.names != [] && x.names[0] == n && n in Records(i)
    ensures var j := i - {Lrec(n)};
            Good(c, j, WithoutHead(x, Records(i)[n].id, Size(i[Lrec(n)])), owner - {n})
            && Logical(j) == Without(Logical(i), n) && n in Logical(i).recs
  {
    assert Look(SpoolKey, 0);
    var j := i - {Lrec(n)};
    CleanLogical(i, c.scope);
    AckCutSafe(i, c.scope, n, j);
    RemoveIndexed(i, j, n, x.names, x.admissions, owner);
    RemoveAccounted(i, j, n, x.next, x.bytes, x.count, c.maxBytes, c.maxItems);
  }

  lemma QuarantineGood(c: Limits, i: LogImage, x: Index, owner: map<nat, Id>, n: nat, id: Id)
    requires Good(c, i, x, owner) && x.names != [] && x.names[0] == n && n !in Records(i)
    requires id in x.admissions && x.admissions[id] == n
    ensures Lrec(n) in i
    ensures var j := Moved(i, Lrec(n), Bad(n));
            Good(c, j, WithoutHead(x, id, Size(i[Lrec(n)])), owner - {n})
            && Clean(j, c.scope) && Logical(j) == Logical(i)
  {
    assert Look(SpoolKey, 0);
    assert n in x.names;
    var j := Moved(i, Lrec(n), Bad(n));
    QuarantineSame(i, c.scope, n);
    CleanLogical(i, c.scope);
    CleanLogical(j, c.scope);
    RemoveIndexed(i, j, n, x.names, x.admissions, owner);
    RemoveAccounted(i, j, n, x.next, x.bytes, x.count, c.maxBytes, c.maxItems);
  }

  lemma OwnerOf(c: Limits, i: LogImage, x: Index, owner: map<nat, Id>, n: nat)
    requires Good(c, i, x, owner) && n in x.names
    ensures exists id :: id in x.admissions && x.admissions[id] == n
  {
    assert Look(SpoolKey, 0);
    assert owner[n] in x.admissions;
  }

  lemma GoodQueue(c: Limits, i: LogImage, x: Index, owner: map<nat, Id>)
    requires Good(c, i, x, owner)
    ensures Sound(Logical(i))
  {
    assert Look(SpoolKey, 0);
    LogicalSound(i, c.scope);
  }

  /** The head of a good index is the oldest ready record; without names none is ready. */
  lemma HeadGood(c: Limits, i: LogImage, x: Index, owner: map<nat, Id>)
    requires Good(c, i, x, owner)
    ensures x.names == [] ==> forall n :: n in Logical(i).recs ==> !Logical(i).recs[n].ready
    ensures x.names != [] && x.names[0] in Records(i) ==>
              IsHead(Logical(i), x.names[0]) && Logical(i).recs[x.names[0]] == Records(i)[x.names[0]]
  {
    assert Look(SpoolKey, 0);
    CleanLogical(i, c.scope);
  }

  /** A record file that is too long to read. */
  ghost predicate Overlong(i: LogImage, n: nat) { Lrec(n) in i && !Readable(i[Lrec(n)]) }

  /** Record files either stay as they are or, when they do not decode, are kept aside. */
  ghost predicate Aside(before: LogImage, after: LogImage) {
    && (forall n: nat :: Lrec(n) in after ==> Lrec(n) in before)
    && forall n: nat :: Lrec(n) in before ==>
         || (Lrec(n) in after && after[Lrec(n)] == before[Lrec(n)])
         || (Lrec(n) !in after && !IsRecord(before[Lrec(n)]) && Bad(n) in after && after[Bad(n)] == before[Lrec(n)])
  }

  lemma AsideStep(before: LogImage, i: LogImage, n: nat)
    requires Aside(before, i) && Lrec(n) in i && !IsRecord(i[Lrec(n)])
    ensures Aside(before, Moved(i, Lrec(n), Bad(n)))
  {
  }

  // ---------- building the index ----------

  ghost predicate Distinct2(s: seq<nat>) {
    forall a, b :: 0 <= a < b < |s| ==> s[a] != s[b]
  }

  function OwnedOne(owner: map<nat, Id>): nat -> nat {
    (n: nat) => if n in owner then 1 else 0
  }

  function OwnedSpace(i: LogImage, owner: map<nat, Id>): nat -> nat {
    (n: nat) => if n in owner && Lrec(n) in i then Charge(Size(i[Lrec(n)])) else 0
  }

  /** The index leads to every record file the scan has passed. */
  ghost predicate Covers(i: LogImage, todo: set<LogName>, x: Index, owner: map<nat, Id>) {
    && x.next == Current(i)
    && (forall k :: k in todo ==> k in i)
    && (forall n: nat :: n in owner <==> n in Records(i) && Lrec(n) !in todo)
    && (forall n: nat :: Lrec(n) in i && !IsRecord(i[Lrec(n)]) ==> Lrec(n) in todo)
    && (forall n :: n in owner ==> owner[n] == Records(i)[n].id && Readable(i[Lrec(n)]))
    && Inverse(x.admissions, owner)
    && Distinct2(x.names)
    && (forall n :: n in x.names <==> n in owner && Records(i)[n].ready)
  }

  ghost predicate Counts(c: Limits, i: LogImage, x: Index, owner: map<nat, Id>) {
    && x.count == Total(OwnedOne(owner), x.next)
    && x.bytes == Overhead(c.maxItems) + Total(OwnedSpace(i, owner), x.next)
  }

  ghost predicate Scanned(key: nat, c: Limits, i: LogImage, todo: set<LogName>, x: Index, owner: map<nat, Id>) {
    Covers(i, todo, x, owner) && Counts(c, i, x, owner)
  }

  /** Scanning, when the directory the opening found was one a run can leave. */
  ghost predicate Scanning(c: Limits, i0: LogImage, i: LogImage, todo: set<LogName>, x: Index, owner: map<nat, Id>) {
    && On(c, i0, i, 3)
    && forall k: nat {:trigger Look(ScanKey, k)} :: Look(ScanKey, k) && Inv(i0, c.scope) ==> Scanned(k, c, i, todo, x, owner)
  }

  lemma ScanStart(c: Limits, i0: LogImage, i: LogImage)
    requires On(c, i0, i, 3)
    ensures Scanning(c, i0, i, i.Keys, Index(Current(i), [], map[], Overhead(c.maxItems), 0), map[])
  {
    TotalExtend(OwnedOne(map[]), 0, Current(i));
    TotalExtend(OwnedSpace(i, map[]), 0, Current(i));
  }

  lemma ScanOther(c: Limits, i0: LogImage, i: LogImage, todo: set<LogName>, x: Index, owner: map<nat, Id>, k: LogName)
    requires Scanning(c, i0, i, todo, x, owner) && !k.Lrec?
    ensures Scanning(c, i0, i, todo - {k}, x, owner)
  {
    assert Look(ScanKey, 0);
  }

  function WithRecord(x: Index, n: nat, r: LogRecord): Index {
    Index(x.next, if r.ready then x.names + [n] else x.names, x.admissions[r.id := n],
          x.bytes + Charge(RecordSize(r)), x.count + 1)
  }

  lemma CoverRecord(i: LogImage, todo: set<LogName>, x: Index, owner: map<nat, Id>, n: nat)
    requires Covers(i, todo, x, owner) && Distinct(i) && Lrec(n) in todo && n in Records(i) && Readable(i[Lrec(n)])
    ensures Records(i)[n].id !in x.admissions && n !in owner
    ensures Covers(i, todo - {Lrec(n)}, WithRecord(x, n, Records(i)[n]), owner[n := Records(i)[n].id])
  {
    var r := Records(i)[n];
    assert n !in owner;
    assert r.id !in x.admissions;
    PutInverse(x.admissions, owner, n, r.id);
    CoverNames(x, n, r);
  }

  lemma CoverNames(x: Index, n: nat, r: LogRecord)
    requires Distinct2(x.names) && n !in x.names
    ensures var y := WithRecord(x, n, r); Distinct2(y.names) && forall m :: m in y.names <==> m in x.names || (r.ready && m == n)
  {
  }

  lemma CountRecord(c: Limits, i: LogImage, x: Index, owner: map<nat, Id>, n: nat)
    requires Counts(c, i, x, owner) && n !in owner && n < x.next && n in Records(i)
    ensures Counts(c, i, WithRecord(x, n, Records(i)[n]), owner[n := Records(i)[n].id])
  {
    var o := owner[n := Records(i)[n].id];
    TotalChange(OwnedOne(owner), OwnedOne(o), n, x.next);
    TotalChange(OwnedSpace(i, owner), OwnedSpace(i, o), n, x.next);
  }

  lemma OnRecords(c: Limits, i0: LogImage, i: LogImage)
    requires On(c, i0, i, 3) && Inv(i0, c.scope)
    ensures Distinct(i) && forall n :: n in Records(i) ==> n < Current(i)
  {
    assert Look(SpoolKey, 0);
  }

  lemma ScanRecord(c: Limits, i0: LogImage, i: LogImage, todo: set<LogName>, x: Index, owner: map<nat, Id>, n: nat)
    requires Scanning(c, i0, i, todo, x, owner) && Lrec(n) in todo && Lrec(n) in i && IsRecord(i[Lrec(n)])
    requires Readable(i[Lrec(n)])
    ensures var r := i[Lrec(n)].value.rec;
            Scanning(c, i0, i, todo - {Lrec(n)}, WithRecord(x, n, r), owner[n := r.id])
            && (Inv(i0, c.scope) ==> r.id !in x.admissions)
  {
    if Inv(i0, c.scope) {
      OnRecords(c, i0, i);
      assert Look(ScanKey, 0);
      CoverRecord(i, todo, x, owner, n);
      CountRecord(c, i, x, owner, n);
    }
  }

  lemma CoverRotten(i: LogImage, j: LogImage, todo: set<LogName>, x: Index, owner: map<nat, Id>, n: nat)
    requires Covers(i, todo, x, owner) && Lrec(n) in todo && !IsRecord(i[Lrec(n)])
    requires j == Moved(i, Lrec(n), Bad(n)) && Records(j) == Records(i) && Current(j) == Current(i)
    ensures Covers(j, todo - {Lrec(n)}, x, owner)
  {
    assert forall k :: k in j <==> (k in i && k != Lrec(n)) || k == Bad(n);
    assert forall m: nat :: Lrec(m) in j ==> j[Lrec(m)] == i[Lrec(m)];
  }

  lemma ScanRotten(c: Limits, i0: LogImage, i: LogImage, todo: set<LogName>, x: Index, owner: map<nat, Id>, n: nat)
    requires Scanning(c, i0, i, todo, x, owner) && Lrec(n) in todo && Lrec(n) in i && !IsRecord(i[Lrec(n)])
    requires Readable(i[Lrec(n)])
    ensures Scanning(c, i0, Moved(i, Lrec(n), Bad(n)), todo - {Lrec(n)}, x, owner)
  {
    OnQuarantine(c, i0, i, n);
    if Inv(i0, c.scope) {
      OnFacts(c, i0, i, 3);
      assert Look(ScanKey, 0);
      QuarantineSame(i, c.scope, n);
      ScannedRotten(c, i, todo, x, owner, n);
    }
  }

  lemma ScannedRotten(c: Limits, i: LogImage, todo: set<LogName>, x: Index, owner: map<nat, Id>, n: nat)
    requires Covers(i, todo, x, owner) && Counts(c, i, x, owner) && Lrec(n) in todo && Lrec(n) in i && !IsRecord(i[Lrec(n)])
    requires Records(Moved(i, Lrec(n), Bad(n))) == Records(i) && Current(Moved(i, Lrec(n), Bad(n))) == Current(i)
    ensures Covers(Moved(i, Lrec(n), Bad(n)), todo - {Lrec(n)}, x, owner) && Counts(c, Moved(i, Lrec(n), Bad(n)), x, owner)
  {
    var j := Moved(i, Lrec(n), Bad(n));
    CoverRotten(i, j, todo, x, owner, n);
    assert n !in owner;
    TotalFrame(OwnedSpace(i, owner), OwnedSpace(j, owner), x.next);
  }

  lemma CoverDone(i: LogImage, x: Index, owner: map<nat, Id>)
    requires Covers(i, {}, x, owner)
    ensures Indexed(i, Sort(x.names), x.admissions, owner)
    ensures forall n: nat :: Lrec(n) in i <==> n in owner
  {
  }

  /** A finished scan is an index of a directory whose only stage is an activation. */
  lemma ScanDone(c: Limits, i0: LogImage, i: LogImage, x: Index, owner: map<nat, Id>)
    requires Scanning(c, i0, i, {}, x, owner) && Inv(i0, c.scope)
    ensures x.next == Current(i)
    ensures Indexed(i, Sort(x.names), x.admissions, owner)
    ensures x.bytes == Overhead(c.maxItems) + Space(i, x.next) && x.count == Number(i, x.next)
    ensures x.bytes <= Overhead(c.maxItems) + Weight(i0) && x.count <= Tally(i0)
  {
    OnWeight(c, i0, i);
    ScanCounts(c, i, x, owner) by { assert Look(ScanKey, 0); }
  }

  lemma ScanCounts(c: Limits, i: LogImage, x: Index, owner: map<nat, Id>)
    requires Covers(i, {}, x, owner) && Counts(c, i, x, owner)
    ensures x.next == Current(i) && Indexed(i, Sort(x.names), x.admissions, owner)
    ensures x.bytes == Overhead(c.maxItems) + Space(i, x.next) && x.count == Number(i, x.next)
  {
    CoverDone(i, x, owner);
    TotalFrame(OwnedOne(owner), OneEach(i), x.next);
    TotalFrame(OwnedSpace(i, owner), SpaceOf(i), x.next);
  }

  lemma OnWeight(c: Limits, i0: LogImage, i: LogImage)
    requires On(c, i0, i, 3) && Inv(i0, c.scope)
    ensures Pending !in i && Weight(i) <= Weight(i0) && Tally(i) <= Tally(i0)
  {
    assert Look(SpoolKey, 0);
  }

  /** Without a staged activation the finished scan is the index. */
  lemma NoActivation(c: Limits, i0: LogImage, i: LogImage, x: Index, owner: map<nat, Id>)
    requires Scanning(c, i0, i, {}, x, owner) && Inv(i0, c.scope) && ReplacePending !in i
    requires x.bytes <= c.maxBytes && x.count <= c.maxItems
    ensures Good(c, i, x.(names := Sort(x.names)), owner) && Logical(i) == Logical(i0)
  {
    ScanDone(c, i0, i, x, owner);
    assert Look(SpoolKey, 0);
  }

  /** A complete staged activation names an admission exactly when it is not orphaned. */
  lemma StagedOwner(i: LogImage, x: Index, owner: map<nat, Id>)
    requires Covers(i, {}, x, owner) && StagesOk(i) && ReplacePending in i && i[ReplacePending].Whole?
    ensures IsRecord(i[ReplacePending]) && i[ReplacePending].value.rec.ready
    ensures Orphaned(i) <==> i[ReplacePending].value.rec.id !in x.admissions
    ensures !Orphaned(i) ==> Names(i, x.admissions[i[ReplacePending].value.rec.id])
  {
    var r := i[ReplacePending].value.rec;
    if n: nat :| Names(i, n) {
      assert n in owner && owner[n] == r.id;
    }
    if r.id in x.admissions {
      assert x.admissions[r.id] in owner;
      assert Names(i, x.admissions[r.id]);
    }
  }

  lemma OnStages(c: Limits, i0: LogImage, i: LogImage)
    requires On(c, i0, i, 3) && Inv(i0, c.scope)
    ensures StagesOk(i) && (Orphaned(i0) <==> Orphaned(i))
  {
    assert Look(SpoolKey, 0);
  }

  /** It names an unready admission with the same payload, or rot has orphaned it. */
  lemma StagedActivation(c: Limits, i0: LogImage, i: LogImage, x: Index, owner: map<nat, Id>)
    requires Scanning(c, i0, i, {}, x, owner) && Inv(i0, c.scope)
    requires ReplacePending in i && i[ReplacePending].Whole?
    ensures IsRecord(i[ReplacePending]) && i[ReplacePending].value.rec.ready
    ensures var r := i[ReplacePending].value.rec;
            && (Orphaned(i0) <==> r.id !in x.admissions)
            && (!Orphaned(i0) ==>
                  && x.admissions[r.id] in Records(i)
                  && Records(i)[x.admissions[r.id]] == r.(ready := false)
                  && x.admissions[r.id] !in x.names)
  {
    OnStages(c, i0, i);
    assert Look(ScanKey, 0);
    StagedOwner(i, x, owner);
  }

  lemma ActivationRecords(i: LogImage, n: nat, r: LogRecord)
    requires n in Records(i) && ReplacePending in i && i[ReplacePending] == Whole(Record(r))
    ensures Records(Moved(i, ReplacePending, Lrec(n))) == Records(i)[n := r]
  {
    var j := Moved(i, ReplacePending, Lrec(n));
    forall m: nat
      ensures m in Records(j) <==> m in Records(i)
      ensures m in Records(j) && m != n ==> Records(j)[m] == Records(i)[m]
    {
      assert Lrec(m) in j <==> Lrec(m) in i;
    }
  }

  lemma ActivationIndexed(i: LogImage, x: Index, owner: map<nat, Id>, n: nat, r: LogRecord)
    requires Covers(i, {}, x, owner)
    requires n in Records(i) && Records(i)[n] == r.(ready := false) && r.ready && n !in x.names
    requires ReplacePending in i && i[ReplacePending] == Whole(Record(r))
    ensures Indexed(Moved(i, ReplacePending, Lrec(n)), Sort(x.names + [n]), x.admissions, owner)
  {
    ActivationRecords(i, n, r);
    CoverDone(i, x, owner);
    CoverNames(x, n, r);
    assert WithRecord(x, n, r).names == x.names + [n];
  }

  lemma OnActivation(c: Limits, i0: LogImage, i: LogImage, n: nat)
    requires On(c, i0, i, 3) && Inv(i0, c.scope)
    requires ReplacePending in i && IsRecord(i[ReplacePending]) && i[ReplacePending].value.rec.ready
    requires n in Records(i) && Records(i)[n] == i[ReplacePending].value.rec.(ready := false)
    ensures var j := Moved(i, ReplacePending, Lrec(n));
            Clean(j, c.scope) && Current(j) == Current(i) && Logical(j) == Logical(i0) && !Orphaned(i0) && !Orphaned(j)
  {
    assert Look(SpoolKey, 0);
    ActivationMoved(i, c.scope, n);
  }

  lemma ActivationKept(c: Limits, i0: LogImage, i: LogImage, n: nat)
    requires On(c, i0, i, 3) && Inv(i0, c.scope)
    requires ReplacePending in i && IsRecord(i[ReplacePending]) && i[ReplacePending].value.rec.ready
    requires n in Records(i) && Records(i)[n] == i[ReplacePending].value.rec.(ready := false)
    ensures Kept(c, i0, Moved(i, ReplacePending, Lrec(n)))
  {
    OnActivation(c, i0, i, n);
    OnSame(c, i0, i, 3);
    OnDone(c, i0, i);
    ActivationWeight(i, n);
  }

  lemma OnDone(c: Limits, i0: LogImage, i: LogImage)
    requires On(c, i0, i, 3) && Inv(i0, c.scope)
    ensures Pending !in i && ManifestPending !in i
  {
    assert Look(SpoolKey, 0);
  }

  lemma ActivationWeight(i: LogImage, n: nat)
    requires Pending !in i
    requires ReplacePending in i && IsRecord(i[ReplacePending])
    requires n in Records(i) && Records(i)[n] == i[ReplacePending].value.rec.(ready := false)
    ensures var j := Moved(i, ReplacePending, Lrec(n)); Weight(j) <= Weight(i) && Tally(j) <= Tally(i)
  {
    var j := Moved(i, ReplacePending, Lrec(n));
    assert Current(j) == Current(i);
    TotalMonotone(SpaceOf(j), SpaceOf(i), Current(i));
    TotalFrame(OneEach(i), OneEach(j), Current(i));
  }

  /** A record made ready takes no more space. */
  lemma SmallerAccounted(c: Limits, i: LogImage, j: LogImage, x: Index, n: nat)
    requires Overhead(c.maxItems) + Space(i, x.next) <= x.bytes <= c.maxBytes
    requires Number(i, x.next) == x.count <= c.maxItems
    requires n in Records(i) && n in Records(j) && Records(i)[n] == Records(j)[n].(ready := false)
    requires forall m: nat :: Lrec(m) in j <==> Lrec(m) in i
    requires forall m: nat :: Lrec(m) in i && m != n ==> i[Lrec(m)] == j[Lrec(m)]
    ensures Accounted(j, x.next, x.bytes, x.count, c.maxBytes, c.maxItems)
  {
    TotalMonotone(SpaceOf(j), SpaceOf(i), x.next);
    TotalFrame(OneEach(i), OneEach(j), x.next);
  }

  lemma GoodIntro(c: Limits, i: LogImage, x: Index, owner: map<nat, Id>)
    requires Coherent(0, c, i, x, owner)
    ensures Good(c, i, x, owner)
  {
  }

  lemma ActivationAccounted(c: Limits, i0: LogImage, i: LogImage, x: Index, owner: map<nat, Id>, n: nat)
    requires Scanning(c, i0, i, {}, x, owner) && Inv(i0, c.scope)
    requires ReplacePending in i && IsRecord(i[ReplacePending]) && i[ReplacePending].value.rec.ready
    requires n in Records(i) && Records(i)[n] == i[ReplacePending].value.rec.(ready := false)
    requires x.bytes <= c.maxBytes && x.count <= c.maxItems
    ensures Accounted(Moved(i, ReplacePending, Lrec(n)), x.next, x.bytes, x.count, c.maxBytes, c.maxItems)
  {
    ScanDone(c, i0, i, x, owner);
    SmallerAccounted(c, i, Moved(i, ReplacePending, Lrec(n)), x, n);
  }

  lemma ActivationGood(c: Limits, i0: LogImage, i: LogImage, x: Index, owner: map<nat, Id>, n: nat)
    requires Scanning(c, i0, i, {}, x, owner) && Inv(i0, c.scope)
    requires ReplacePending in i && IsRecord(i[ReplacePending]) && i[ReplacePending].value.rec.ready
    requires n in Records(i) && Records(i)[n] == i[ReplacePending].value.rec.(ready := false) && n !in x.names
    requires x.bytes <= c.maxBytes && x.count <= c.maxItems
    ensures var j := Moved(i, ReplacePending, Lrec(n));
            Good(c, j, x.(names := Sort(x.names + [n])), owner) && Clean(j, c.scope) && Logical(j) == Logical(i0)
  {
    var j := Moved(i, ReplacePending, Lrec(n));
    OnActivation(c, i0, i, n);
    ScanDone(c, i0, i, x, owner);
    ActivationIndexed(i, x, owner, n, i[ReplacePending].value.rec) by { assert Look(ScanKey, 0); }
    ActivationAccounted(c, i0, i, x, owner, n);
    GoodIntro(c, j, x.(names := Sort(x.names + [n])), owner);
  }

  /** The control file does not decode, is of another scope, or gives no sequence. */
  ghost predicate RefusedControl(i: LogImage, scope: string) {
    ManifestPending !in i && ManifestJson in i && !IsManifest(i[ManifestJson], scope)
  }

  /** How opening a directory left by runs of the spool can end, and what each end says of the directory. */
  ghost predicate Explains(err: OpenError, i: LogImage, c: Limits) {
    match err
    case Opened => !TornStage(i) && !Orphaned(i) && RecordsReadable(i)
    case Io => true
    case TooMany => |i| + 1 > c.maxItems + 16
    case BadStage => TornStage(i)
    case Unsafe => !RecordsReadable(i)
    case Conflict => Orphaned(i)
    case OverBudget => !Room(i, c.maxBytes, c.maxItems)
    case _ => false
  }

  lemma ScanTorn(c: Limits, i0: LogImage, i: LogImage, x: Index, owner: map<nat, Id>)
    requires Scanning(c, i0, i, {}, x, owner) && Inv(i0, c.scope)
    ensures TornStage(i0) ==> ReplacePending in i0 && i0[ReplacePending].Torn?
    ensures SameFile(i0, i, ReplacePending)
  {
    assert Look(SpoolKey, 0);
  }

  /** Every record file was read, so only the staged activation can be too long. */
  lemma ScanRead(c: Limits, i0: LogImage, i: LogImage, x: Index, owner: map<nat, Id>)
    requires Scanning(c, i0, i, {}, x, owner) && Inv(i0, c.scope)
    ensures (ReplacePending in i ==> Readable(i[ReplacePending])) ==> RecordsReadable(i0)
  {
    assert Look(SpoolKey, 0) && Look(ScanKey, 0);
    forall k | k in i && Consulted(k) && !k.ReplacePending?
      ensures Readable(i[k])
    {
      assert k.Lrec?;
    }
  }

  lemma ScanEnd(c: Limits, i0: LogImage, i: LogImage, x: Index, owner: map<nat, Id>)
    requires Scanning(c, i0, i, {}, x, owner) && Inv(i0, c.scope)
    ensures x.bytes <= Overhead(c.maxItems) + Weight(i0) && x.count <= Tally(i0)
    ensures TornStage(i0) ==> ReplacePending in i && i[ReplacePending].Torn?
    ensures (ReplacePending in i ==> Readable(i[ReplacePending])) ==> RecordsReadable(i0)
  {
    ScanDone(c, i0, i, x, owner);
    ScanTorn(c, i0, i, x, owner);
    ScanRead(c, i0, i, x, owner);
  }

  /** A spool at rest that is opened again counts no more bytes than before. */
  lemma ReopenNeverRaises(c: Limits, i: LogImage, x: Index, owner: map<nat, Id>, bytes: int)
    requires Good(c, i, x, owner) && bytes <= Overhead(c.maxItems) + Weight(i)
    ensures bytes <= x.bytes
  {
    assert Look(SpoolKey, 0);
  }

  class LogDisk {
    const dir: Directory<LogName, LogFile>
    const limits: Limits
    var next: nat
    var names: seq<nat>
    var admissions: map<Id, nat>
    var bytes: int
    var count: int
    var corrupt: nat
    var closed: bool
    ghost var owner: map<nat, Id>

    constructor (dir: Directory<LogName, LogFile>, limits: Limits)
      ensures this.dir == dir && this.limits == limits
      ensures names == [] && admissions == map[] && bytes == Overhead(limits.maxItems) && count == 0 && corrupt == 0 && !closed
    {
      this.dir, this.limits := dir, limits;
      next, names, admissions := 0, [], map[];
      bytes, count, corrupt, closed, owner := Overhead(limits.maxItems), 0, 0, false, map[];
    }

    function Memory(): Index
      reads this
    {
      Index(next, names, admissions, bytes, count)
    }

    ghost predicate Valid()
      reads this, dir
    {
      dir.Settled() && Good(limits, dir.Image(), Memory(), owner)
    }

    /** The queue users of the spool see. */
    ghost function Contents(): Queue
      reads this, dir
      requires |dir.views| > 0
    {
      Logical(dir.Image())
    }

    /** What holds of the directory while an opening that found i0 runs. */
    ghost predicate Opening(i0: LogImage, phase: nat)
      reads dir
    {
      dir.Settled() && On(limits, i0, dir.Image(), phase)
    }

    /** Nothing a crash may leave now denotes another queue than i0 did, or exceeds a budget i0 met. */
    ghost predicate Lossless(i0: LogImage)
      reads dir
    {
      |dir.views| > 0 && (Inv(i0, limits.scope) ==> forall i :: Survivor(dir.views, i) ==> Kept(limits, i0, i))
    }

    lemma OpeningLossless(i0: LogImage, phase: nat)
      requires Opening(i0, phase)
      ensures Lossless(i0)
    {
      SettledSurvivors();
      if Inv(i0, limits.scope) {
        OnSame(limits, i0, dir.Image(), phase);
      }
    }

    /** An opening stops for I/O exactly when a call failed. */
    twostate predicate Reports(err: OpenError)
      reads dir
    {
      old(dir.faults) <= dir.faults && (err.Io? <==> old(dir.faults) < dir.faults)
    }

    /** Rename and sync, between two images that keep what i0 denotes. */
    method CommitKept(ghost i0: LogImage, source: LogName, target: LogName) returns (moved: bool, ok: bool)
      requires dir.Settled() && source in dir.Now() && source != target
      requires Inv(i0, limits.scope) ==>
                 Kept(limits, i0, dir.Image()) && Kept(limits, i0, Moved(dir.Image(), source, target))
      modifies dir
      ensures ok ==> moved && dir.Settled() && dir.Image() == Moved(old(dir.Image()), source, target)
      ensures dir.faults >= old(dir.faults) && (ok <==> dir.faults == old(dir.faults))
      ensures Lossless(i0)
    {
      SettledSurvivors();
      moved, ok := dir.Commit(source, target);
    }

    /** Finish an interrupted control replacement. */
    method RecoverLogManifest() returns (err: OpenError)
      requires dir.Settled()
      modifies dir
      ensures Reports(err)
      ensures err.Opened? ==> Opening(old(dir.Image()), 1)
      ensures Lossless(old(dir.Image()))
      ensures err.Opened? || err.Io? || err.BadStage? || err.BadControl?
      ensures err.BadStage? ==> (Inv(old(dir.Image()), limits.scope) ==> TornStage(old(dir.Image())))
      ensures err.BadControl? ==> !Inv(old(dir.Image()), limits.scope)
      ensures ManifestPending !in old(dir.Image()) ==> err.Opened? && dir.Image() == old(dir.Image())
    {
      ghost var i0 := dir.Image();
      OnStart(limits, i0);
      OpeningLossless(i0, 0);
      OnManifest(limits, i0);
      if ManifestPending !in dir.Now() {
        return Opened;
      }
      var pending := dir.Read(ManifestPending);
      if !IsManifest(pending, limits.scope) {
        return BadStage;
      }
      if ManifestJson in dir.Now() {
        var current := dir.Read(ManifestJson);
        if !IsManifest(current, limits.scope) {
          return BadControl;
        }
        if pending.value.next < current.value.next {
          return BadStage;
        }
      }
      if Inv(i0, limits.scope) {
        OnSame(limits, i0, i0, 0);
        OnSame(limits, i0, Moved(i0, ManifestPending, ManifestJson), 1);
      }
      var moved, ok := CommitKept(i0, ManifestPending, ManifestJson);
      return if ok then Opened else Io;
    }

    /** Read the control file, or write the first one. */
    method LoadControl(ghost i0: LogImage) returns (err: OpenError)
      requires Opening(i0, 1)
      modifies this, dir
      ensures Reports(err)
      ensures err.Opened? ==> Opening(i0, 2) && next == Current(dir.Image())
      ensures Lossless(i0)
      ensures err.Opened? || err.Io? || err.BadControl?
      ensures err.BadControl? ==> !Inv(i0, limits.scope)
      ensures ManifestJson in old(dir.Image()) && !IsManifest(old(dir.Image())[ManifestJson], limits.scope) ==> err.BadControl?
      ensures names == old(names) && admissions == old(admissions) && bytes == old(bytes) && count == old(count)
      ensures owner == old(owner) && closed == old(closed)
    {
      OpeningLossless(i0, 1);
      ghost var i := dir.Image();
      if ManifestJson !in dir.Now() {
        next := 1;
        if Inv(i0, limits.scope) {
          forall j | ReplaceCut(i, ManifestPending, ManifestJson, Manifest(limits.scope, 1), j)
            ensures Kept(limits, i0, j)
            ensures j == Replaced(i, ManifestPending, ManifestJson, Manifest(limits.scope, 1)) ==> On(limits, i0, j, 2)
          {
            OnFresh(limits, i0, i, j);
          }
        } else {
          OnAny(limits, i0, Replaced(i, ManifestPending, ManifestJson, Manifest(limits.scope, 1)), 2);
        }
        var ok := dir.Replace(ManifestPending, ManifestJson, Manifest(limits.scope, 1), false);
        return if ok then Opened else Io;
      }
      OnLoaded(limits, i0, i);
      var current := dir.Read(ManifestJson);
      if !IsManifest(current, limits.scope) {
        return BadControl;
      }
      next := current.value.next;
      return Opened;
    }

    /** Finish an interrupted admission. */
    method RecoverPendingRecord(ghost i0: LogImage) returns (err: OpenError)
      requires Opening(i0, 2) && next == Current(dir.Image())
      modifies dir
      ensures Reports(err)
      ensures err.Opened? ==> Opening(i0, 3) && next == Current(dir.Image())
      ensures Lossless(i0)
      ensures err.Opened? || err.Io? || err.BadStage? || err.Unsafe? || err.Conflict?
      ensures err.BadStage? ==> (Inv(i0, limits.scope) ==> TornStage(i0))
      ensures err.Conflict? ==> !Inv(i0, limits.scope)
      ensures err.Unsafe? ==> (Inv(i0, limits.scope) ==> !RecordsReadable(i0))
    {
      OpeningLossless(i0, 2);
      ghost var i := dir.Image();
      SettledSurvivors();
      if Pending !in dir.Now() {
        OnPending(limits, i0, i);
        return Opened;
      }
      var pending := dir.Read(Pending);
      if !Readable(pending) {
        OnReadable(limits, i0, i, 2, Pending);
        return Unsafe;
      }
      OnPending(limits, i0, i);
      if !IsRecord(pending) || next <= 1 {
        return BadStage;
      }
      err := PlacePending(i0, pending.value.rec);
    }

    /** Under the reserved sequence, unless that already holds the same record. */
    method PlacePending(ghost i0: LogImage, r: LogRecord) returns (err: OpenError)
      requires Opening(i0, 2) && next == Current(dir.Image()) && next > 1
      requires Pending in dir.Image() && dir.Image()[Pending] == Whole(Record(r)) && Readable(dir.Image()[Pending])
      modifies dir
      ensures Reports(err)
      ensures err.Opened? ==> Opening(i0, 3) && next == Current(dir.Image())
      ensures Lossless(i0)
      ensures err.Opened? || err.Io? || err.Conflict?
      ensures err.Conflict? ==> !Inv(i0, limits.scope)
    {
      ghost var i := dir.Image();
      var target := Lrec(next - 1);
      OnFree(limits, i0, i);
      if target in dir.Now() {
        err := DropDuplicate(i0, target, r);
      } else {
        OnPlaced(limits, i0, i);
        err := MovePending(i0, target);
      }
    }

    /** The sequence is taken, which no run leaves: the stage goes if it is the same record. */
    method DropDuplicate(ghost i0: LogImage, target: LogName, r: LogRecord) returns (err: OpenError)
      requires dir.Settled() && !Inv(i0, limits.scope) && target.Lrec? && target in dir.Image() && Pending in dir.Image()
      modifies dir
      ensures Reports(err)
      ensures err.Opened? ==> Opening(i0, 3) && Current(dir.Image()) == Current(old(dir.Image()))
      ensures Lossless(i0)
      ensures err.Opened? || err.Io? || err.Conflict?
    {
      var file := dir.Read(target);
      if !Readable(file) || !IsRecord(file) || !SameRecord(file.value.rec, r) {
        return Conflict;
      }
      var removed, ok := dir.Drop(Pending);
      OnAny(limits, i0, dir.Image(), 3);
      return if ok then Opened else Io;
    }

    method MovePending(ghost i0: LogImage, target: LogName) returns (err: OpenError)
      requires Opening(i0, 2) && Pending in dir.Image() && target.Lrec?
      requires On(limits, i0, Moved(dir.Image(), Pending, target), 3)
      modifies dir
      ensures Reports(err)
      ensures err.Opened? ==> Opening(i0, 3) && dir.Image() == Moved(old(dir.Image()), Pending, target)
      ensures Lossless(i0)
      ensures err.Opened? || err.Io?
    {
      if Inv(i0, limits.scope) {
        OnSame(limits, i0, dir.Image(), 2);
        OnSame(limits, i0, Moved(dir.Image(), Pending, target), 3);
      }
      var moved, ok := CommitKept(i0, Pending, target);
      return if ok then Opened else Io;
    }

    /** Index every record file; keep aside those that do not decode. */
    method Scan(ghost i0: LogImage) returns (err: OpenError)
      requires Opening(i0, 3) && next == Current(dir.Image())
      requires names == [] && admissions == map[] && bytes == Overhead(limits.maxItems) && count == 0
      modifies this, dir
      ensures Reports(err)
      ensures err.Opened? ==> dir.Settled() && Scanning(limits, i0, dir.Image(), {}, Memory(), owner)
      ensures Lossless(i0)
      ensures err.Opened? || err.Io? || err.TooMany? || err.Unsafe? || err.Unexpected? || err.Duplicate?
      ensures err.TooMany? ==> |old(dir.Image())| + 1 > limits.maxItems + 16
      ensures err.TooMany? && Inv(i0, limits.scope) ==> |i0| + 1 > limits.maxItems + 16
      ensures err.Unsafe? ==> (Inv(i0, limits.scope) ==> !RecordsReadable(i0))
      ensures err.Unexpected? || err.Duplicate? ==> !Inv(i0, limits.scope)
      ensures closed == old(closed)
    {
      ScanStart(limits, i0, dir.Image());
      OpeningLossless(i0, 3);
      owner := map[];
      var todo := dir.List();
      assert |dir.Image()| == |todo| by { assert dir.Image().Keys == todo; }
      if |todo| + 1 > limits.maxItems + 16 {
        if Inv(i0, limits.scope) { OnEntries(limits, i0, dir.Image(), 3); }
        return TooMany;
      }
      while todo != {}
        invariant dir.Settled() && Scanning(limits, i0, dir.Image(), todo, Memory(), owner)
        invariant todo <= dir.Image().Keys && closed == old(closed) && dir.faults == old(dir.faults)
        decreases todo
      {
        OpeningLossless(i0, 3);
        var name :| name in todo;
        match name {
          case Lrec(n) =>
            err := Take(i0, todo, n);
            if !err.Opened? { return; }
          case ManifestJson => ScanOther(limits, i0, dir.Image(), todo, Memory(), owner, name);
          case ReplacePending => ScanOther(limits, i0, dir.Image(), todo, Memory(), owner, name);
          case Bad(_) => ScanOther(limits, i0, dir.Image(), todo, Memory(), owner, name);
          case _ =>
            OnExpected(limits, i0, dir.Image(), name);
            return Unexpected;
        }
        todo := todo - {name};
      }
      OpeningLossless(i0, 3);
      return Opened;
    }

    method Take(ghost i0: LogImage, ghost todo: set<LogName>, n: nat) returns (err: OpenError)
      requires dir.Settled() && Scanning(limits, i0, dir.Image(), todo, Memory(), owner)
      requires Lrec(n) in todo && todo <= dir.Image().Keys
      modifies this, dir
      ensures Reports(err)
      ensures err.Opened? ==> dir.Settled() && Scanning(limits, i0, dir.Image(), todo - {Lrec(n)}, Memory(), owner)
      ensures err.Opened? ==> todo - {Lrec(n)} <= dir.Image().Keys
      ensures err.Opened? ==> corrupt == old(corrupt) + if IsRecord(old(dir.Image())[Lrec(n)]) then 0 else 1
      ensures Lossless(i0)
      ensures err.Opened? || err.Io? || err.Unsafe? || err.Duplicate?
      ensures err.Unsafe? ==> (Inv(i0, limits.scope) ==> !RecordsReadable(i0))
      ensures err.Duplicate? ==> !Inv(i0, limits.scope)
      ensures closed == old(closed)
    {
      OpeningLossless(i0, 3);
      ghost var i := dir.Image();
      var file := dir.Read(Lrec(n));
      if !Readable(file) {
        OnReadable(limits, i0, i, 3, Lrec(n));
        return Unsafe;
      }
      if !IsRecord(file) {
        ScanRotten(limits, i0, i, todo, Memory(), owner, n);
        err := SetAside(i0, n);
        return;
      }
      ScanRecord(limits, i0, i, todo, Memory(), owner, n);
      var r := file.value.rec;
      if r.id in admissions {
        return Duplicate;
      }
      ghost var x := Memory();
      if r.ready {
        names := names + [n];
      }
      NoteAdmission(n, r);
      assert Memory() == WithRecord(x, n, r);
      return Opened;
    }

    method SetAside(ghost i0: LogImage, n: nat) returns (err: OpenError)
      requires Opening(i0, 3) && Lrec(n) in dir.Image() && On(limits, i0, Moved(dir.Image(), Lrec(n), Bad(n)), 3)
      modifies dir, `corrupt
      ensures Reports(err)
      ensures err.Opened? ==> dir.Settled() && dir.Image() == Moved(old(dir.Image()), Lrec(n), Bad(n)) && corrupt == old(corrupt) + 1
      ensures err.Opened? || err.Io?
      ensures Lossless(i0)
    {
      if Inv(i0, limits.scope) {
        OnSame(limits, i0, dir.Image(), 3);
        OnSame(limits, i0, Moved(dir.Image(), Lrec(n), Bad(n)), 3);
      }
      var moved, ok := CommitKept(i0, Lrec(n), Bad(n));
      if moved { corrupt := corrupt + 1; }
      return if ok then Opened else Io;
    }

    /** Finish an interrupted activation. */
    method RecoverPendingActivation(ghost i0: LogImage) returns (err: OpenError)
      requires dir.Settled() && Scanning(limits, i0, dir.Image(), {}, Memory(), owner)
      modifies dir, `names
      ensures Reports(err)
      ensures err.Opened? ==> dir.Settled() && Ready(i0, dir.Image(), Memory())
      ensures Lossless(i0)
      ensures err.Opened? || err.Io? || err.BadStage? || err.Unsafe? || err.Conflict?
      ensures err.BadStage? ==> (Inv(i0, limits.scope) ==> TornStage(i0))
      ensures err.Opened? && ReplacePending in old(dir.Image()) ==>
                old(dir.Image())[ReplacePending].Whole? && Readable(old(dir.Image())[ReplacePending])
      ensures err.Unsafe? ==> (Inv(i0, limits.scope) ==> !RecordsReadable(i0))
      ensures Inv(i0, limits.scope) ==> (err.Conflict? ==> Orphaned(i0)) && (err.Opened? ==> !Orphaned(i0))
    {
      OpeningLossless(i0, 3);
      SettledSurvivors();
      ghost var i := dir.Image();
      if ReplacePending !in dir.Now() {
        if Inv(i0, limits.scope) { OnOrphan(limits, i0, i, 3); }
        if Inv(i0, limits.scope) && bytes <= limits.maxBytes && count <= limits.maxItems {
          NoActivation(limits, i0, i, Memory(), owner);
        }
        return Opened;
      }
      var pending := dir.Read(ReplacePending);
      if !Readable(pending) {
        OnReadable(limits, i0, i, 3, ReplacePending);
        return Unsafe;
      }
      OnStaged(limits, i0, i);
      if !IsRecord(pending) || !pending.value.rec.ready {
        return BadStage;
      }
      err := ApplyActivation(i0, pending.value.rec);
    }

    method ApplyActivation(ghost i0: LogImage, r: LogRecord) returns (err: OpenError)
      requires dir.Settled() && Scanning(limits, i0, dir.Image(), {}, Memory(), owner)
      requires ReplacePending in dir.Image() && dir.Image()[ReplacePending] == Whole(Record(r)) && r.ready
      modifies dir, `names
      ensures Reports(err)
      ensures err.Opened? ==> dir.Settled() && Ready(i0, dir.Image(), Memory())
      ensures Lossless(i0)
      ensures err.Opened? || err.Io? || err.Unsafe? || err.Conflict?
      ensures err.Unsafe? ==> (Inv(i0, limits.scope) ==> !RecordsReadable(i0))
      ensures Inv(i0, limits.scope) ==> (err.Conflict? ==> Orphaned(i0)) && (err.Opened? ==> !Orphaned(i0))
    {
      OpeningLossless(i0, 3);
      SettledSurvivors();
      ghost var i := dir.Image();
      ghost var x := Memory();
      if Inv(i0, limits.scope) {
        StagedActivation(limits, i0, i, x, owner);
      }
      if r.id !in admissions || Lrec(admissions[r.id]) !in dir.Now() {
        return Conflict;
      }
      var n := admissions[r.id];
      var current := dir.Read(Lrec(n));
      if !Readable(current) {
        OnReadable(limits, i0, i, 3, Lrec(n));
        return Unsafe;
      }
      if !IsRecord(current) || current.value.rec.payload != r.payload {
        return Conflict;
      }
      var ok := MoveActivation(i0, n);
      if !ok { return Io; }
      if !current.value.rec.ready {
        names := names + [n];
      }
      return Opened;
    }

    /** What the directory is worth once the activation is in place. */
    ghost predicate Ready(i0: LogImage, i: LogImage, x: Index)
      reads `owner
    {
      Inv(i0, limits.scope) && x.bytes <= limits.maxBytes && x.count <= limits.maxItems ==>
        Good(limits, i, x.(names := Sort(x.names)), owner) && Logical(i) == Logical(i0)
    }

    lemma ActivationReady(i0: LogImage, i: LogImage, x: Index, n: nat)
      requires Scanning(limits, i0, i, {}, x, owner)
      requires ReplacePending in i && IsRecord(i[ReplacePending]) && i[ReplacePending].value.rec.ready
      requires Inv(i0, limits.scope) ==>
                 n in Records(i) && n !in x.names && Records(i)[n] == i[ReplacePending].value.rec.(ready := false)
      ensures Inv(i0, limits.scope) ==> Kept(limits, i0, Moved(i, ReplacePending, Lrec(n)))
      ensures Ready(i0, Moved(i, ReplacePending, Lrec(n)), x.(names := x.names + [n]))
    {
      if Inv(i0, limits.scope) {
        ActivationKept(limits, i0, i, n);
        if x.bytes <= limits.maxBytes && x.count <= limits.maxItems {
          ActivationGood(limits, i0, i, x, owner, n);
        }
      }
    }

    method MoveActivation(ghost i0: LogImage, n: nat) returns (ok: bool)
      requires dir.Settled() && Scanning(limits, i0, dir.Image(), {}, Memory(), owner)
      requires ReplacePending in dir.Image() && IsRecord(dir.Image()[ReplacePending])
      requires dir.Image()[ReplacePending].value.rec.ready
      requires Inv(i0, limits.scope) ==>
                 && n in Records(dir.Image()) && n !in names
                 && Records(dir.Image())[n] == dir.Image()[ReplacePending].value.rec.(ready := false)
      modifies dir
      ensures ok ==> dir.Settled() && Ready(i0, dir.Image(), Memory().(names := names + [n]))
      ensures dir.faults >= old(dir.faults) && (ok <==> dir.faults == old(dir.faults))
      ensures Lossless(i0)
    {
      if Inv(i0, limits.scope) { OnSame(limits, i0, dir.Image(), 3); }
      ActivationReady(i0, dir.Image(), Memory(), n);
      var moved;
      moved, ok := CommitKept(i0, ReplacePending, Lrec(n));
    }

    /**
    Open the spool.  Whatever directory a run of it can have left, with any number of
    crashes and interrupted openings, either comes back as the queue it denotes, counting
    no more bytes than it weighs, or is refused for what the directory shows; an error
    leaves that queue where it was.  A control file that says nothing is always refused.
    */
    method Open() returns (err: OpenError)
      requires dir.Settled() && names == [] && admissions == map[] && bytes == Overhead(limits.maxItems) && count == 0
      modifies this, dir
      ensures Reports(err)
      ensures err.Opened? && Inv(old(dir.Image()), limits.scope) ==> Valid() && Contents() == Logical(old(dir.Image()))
      ensures Lossless(old(dir.Image()))
      ensures Inv(old(dir.Image()), limits.scope) ==> Explains(err, old(dir.Image()), limits)
      ensures err.Opened? && Inv(old(dir.Image()), limits.scope) ==> bytes <= Overhead(limits.maxItems) + Weight(old(dir.Image()))
      ensures RefusedControl(old(dir.Image()), limits.scope) ==> err.BadControl?
      ensures closed == old(closed)
    {
      ghost var i0 := dir.Image();
      err := OpenControl();
      if !err.Opened? { return; }
      err := OpenRecords(i0);
    }

    method OpenRecords(ghost i0: LogImage) returns (err: OpenError)
      requires Opening(i0, 3) && next == Current(dir.Image())
      requires names == [] && admissions == map[] && bytes == Overhead(limits.maxItems) && count == 0
      modifies this, dir
      ensures Reports(err)
      ensures err.Opened? && Inv(i0, limits.scope) ==> Valid() && Contents() == Logical(i0)
      ensures err.Opened? && Inv(i0, limits.scope) ==> bytes <= Overhead(limits.maxItems) + Weight(i0)
      ensures Lossless(i0)
      ensures Inv(i0, limits.scope) ==> Explains(err, i0, limits)
      ensures closed == old(closed)
    {
      err := Scan(i0);
      if !err.Opened? { return; }
      ghost var x := Memory();
      if Inv(i0, limits.scope) {
        ScanEnd(limits, i0, dir.Image(), x, owner);
      }
      err := RecoverPendingActivation(i0);
      if !err.Opened? { return; }
      if bytes > limits.maxBytes || count > limits.maxItems {
        err := OverBudget;
      } else {
        SortNames(i0);
      }
    }

    /** Names in order make the index good. */
    method SortNames(ghost i0: LogImage)
      requires dir.Settled() && Ready(i0, dir.Image(), Memory()) && bytes <= limits.maxBytes && count <= limits.maxItems
      modifies `names
      ensures Inv(i0, limits.scope) ==> Valid() && Contents() == Logical(i0)
    {
      ghost var x := Memory();
      names := Sort(names);
      assert Memory() == x.(names := Sort(x.names));
    }

    method OpenControl() returns (err: OpenError)
      requires dir.Settled()
      modifies this, dir
      ensures Reports(err)
      ensures err.Opened? ==> Opening(old(dir.Image()), 3) && next == Current(dir.Image())
      ensures Lossless(old(dir.Image()))
      ensures Inv(old(dir.Image()), limits.scope) && !err.Opened? ==> Explains(err, old(dir.Image()), limits)
      ensures RefusedControl(old(dir.Image()), limits.scope) ==> err.BadControl?
      ensures names == old(names) && admissions == old(admissions) && bytes == old(bytes) && count == old(count)
      ensures closed == old(closed)
    {
      ghost var i0 := dir.Image();
      err := RecoverLogManifest();
      if !err.Opened? { return; }
      err := LoadControl(i0);
      if !err.Opened? { return; }
      err := RecoverPendingRecord(i0);
    }

    method PutAdmission(cancelled: bool, s: Submission) returns (r: PutResult)
      requires Valid()
      modifies this, dir
      ensures r == PutRefused <==> cancelled || old(closed) || !s.wellFormed || s.length > PAYLOAD_LIMIT
      ensures r.PutRefused? || r.Full? || r.Existing? ==>
                Valid() && dir.views == old(dir.views) && Memory() == old(Memory()) && closed == old(closed)
      ensures r.Existing? <==> !r.PutRefused? && s.id in old(admissions)
      ensures r.Existing? ==> r.n == old(admissions)[s.id]
      ensures r.Full? <==> (&& !r.PutRefused? && !r.Existing?
                            && (old(count) >= limits.maxItems
                                || old(bytes) + Charge(RecordSize(LogRecord(s.id, false, s.normalized))) > limits.maxBytes))
      ensures r.Admitted? ==> (&& r.n == old(next) && !closed && dir.Settled()
                               && dir.Image() == Put(old(dir.Image()), limits.scope, LogRecord(s.id, false, s.normalized)))
      ensures r.Admitted? && old(next) + 1 < SEQ_LIMIT ==>
                Valid() && Contents() == Admit(old(Contents()), s.id, s.normalized)
      ensures r.PutFailed? ==> closed
      ensures dir.faults >= old(dir.faults) && (r.PutFailed? <==> dir.faults > old(dir.faults))
      ensures |dir.views| > 0
      ensures r.PutRefused? || r.Existing? || !Holds(old(Contents()), s.id)
      ensures r.PutFailed? || r.Admitted? ==>
                forall i :: Survivor(dir.views, i)
                  ==> PutCut(old(dir.Image()), limits.scope, LogRecord(s.id, false, s.normalized), i)
    {
      if cancelled || closed || !s.wellFormed || s.length > PAYLOAD_LIMIT {
        return PutRefused;
      }
      if s.id in admissions {
        return Existing(admissions[s.id]);
      }
      FreshId(limits, dir.Image(), Memory(), owner, s.id);
      var rec := LogRecord(s.id, false, s.normalized);
      var cost := Charge(RecordSize(rec));
      if count >= limits.maxItems || bytes + cost > limits.maxBytes {
        return Full;
      }
      var n := next;
      var ok := Append(rec);
      return if ok then Admitted(n) else PutFailed;
    }

    /** Reserve a sequence and write the record under it. */
    method Append(rec: LogRecord) returns (ok: bool)
      requires Valid() && !closed && rec.id !in admissions && !rec.ready
      requires count < limits.maxItems && bytes + Charge(RecordSize(rec)) <= limits.maxBytes
      modifies this, dir
      ensures closed == !ok
      ensures dir.faults >= old(dir.faults) && (ok <==> dir.faults == old(dir.faults))
      ensures ok ==> dir.Settled() && dir.Image() == Put(old(dir.Image()), limits.scope, rec)
      ensures ok && old(next) + 1 < SEQ_LIMIT ==> Valid() && Contents() == Admit(old(Contents()), rec.id, rec.payload)
      ensures |dir.views| > 0
      ensures forall i :: Survivor(dir.views, i) ==> PutCut(old(dir.Image()), limits.scope, rec, i)
    {
      ghost var x0, i, o := Memory(), dir.Image(), owner;
      NextIsCurrent(limits, i, x0, o);
      if next + 1 < SEQ_LIMIT {
        PutGood(limits, i, x0, o, rec);
      }
      var n := next;
      next := Succ(next);
      ok := WriteBoth(n, rec);
      if ok {
        NoteAdmission(n, rec);
        if n + 1 < SEQ_LIMIT {
          assert Memory() == Index(n + 1, x0.names, x0.admissions[rec.id := n], x0.bytes + Charge(RecordSize(rec)), x0.count + 1);
          assert dir.Image() == Put(i, limits.scope, rec) && owner == o[n := rec.id];
        }
      } else {
        closed := true;
      }
    }

    method NoteAdmission(n: nat, rec: LogRecord)
      modifies `admissions, `bytes, `count, `owner
      ensures admissions == old(admissions)[rec.id := n] && owner == old(owner)[n := rec.id]
      ensures bytes == old(bytes) + Charge(RecordSize(rec)) && count == old(count) + 1
    {
      admissions := admissions[rec.id := n];
      owner := owner[n := rec.id];
      count := count + 1;
      bytes := bytes + Charge(RecordSize(rec));
    }

    /** The control file first, then the record. */
    method WriteBoth(n: nat, rec: LogRecord) returns (ok: bool)
      requires dir.Settled() && n == Current(dir.Image()) && next == Succ(n) && Pending !in dir.Image()
      modifies dir
      ensures dir.faults >= old(dir.faults) && (ok <==> dir.faults == old(dir.faults))
      ensures ok ==> dir.Settled() && dir.Image() == Put(old(dir.Image()), limits.scope, rec)
      ensures |dir.views| > 0
      ensures forall i :: Survivor(dir.views, i) ==> PutCut(old(dir.Image()), limits.scope, rec, i)
    {
      ok := dir.Replace(ManifestPending, ManifestJson, Manifest(limits.scope, next), false);
      if ok {
        ok := dir.Replace(Pending, Lrec(n), Record(rec), true);
      }
    }

    /** The record is there to be read: not too long, and it decodes. */
    ghost predicate Legible(n: nat)
      reads dir
    {
      |dir.views| > 0 && Lrec(n) in dir.Image() && Readable(dir.Image()[Lrec(n)]) && IsRecord(dir.Image()[Lrec(n)])
    }

    /**
    A record becomes deliverable; repeating it, or naming an unknown admission, changes
    nothing.  An admission that can be read is activated unless the caller cancelled or a
    call fails.
    */
    method Activate(cancelled: bool, id: Id) returns (e: Effect)
      requires Valid()
      modifies this, dir
      ensures e.Done? ==> Valid() && !cancelled && Contents() == LogQueue.Activate(old(Contents()), id)
      ensures e.Done? && id in admissions ==> admissions[id] in names
      ensures e.Untouched? ==> dir.views == old(dir.views) && Valid()
      ensures e.Untouched? <==> cancelled || old(id in admissions && admissions[id] !in names && !Legible(admissions[id]))
      ensures dir.faults >= old(dir.faults) && (e.Broken? <==> dir.faults > old(dir.faults))
      ensures closed == (old(closed) || e.Broken?)
      ensures admissions == old(admissions) && next == old(next)
      ensures |dir.views| > 0
      ensures e.Broken? ==> id in admissions && Unready(old(dir.Image()), admissions[id], id)
      ensures e.Broken? ==> forall i :: Survivor(dir.views, i) ==> ActivateCut(old(dir.Image()), admissions[id], i)
    {
      ghost var i0 := dir.Image();
      ghost var x0 := Memory();
      GoodFacts(limits, i0, x0, owner);
      if cancelled {
        return Untouched;
      }
      if id !in admissions || admissions[id] in names {
        ActivateNothing(limits, i0, x0, owner, id);
        return Done;
      }
      var n := admissions[id];
      var file := dir.Read(Lrec(n));
      if !Readable(file) || !IsRecord(file) {
        return Untouched;
      }
      e := MakeReady(id, n, file.value.rec);
    }

    /** Rewrite an unready record as ready. */
    method MakeReady(ghost id: Id, n: nat, rec: LogRecord) returns (e: Effect)
      requires Valid() && id in admissions && admissions[id] == n && n !in names
      requires Lrec(n) in dir.Image() && dir.Image()[Lrec(n)] == Whole(Record(rec))
      modifies `names, `closed, dir
      ensures e.Done? ==> Valid() && n in names && Contents() == LogQueue.Activate(old(Contents()), id)
      ensures !e.Untouched? && dir.faults >= old(dir.faults) && (e.Broken? <==> dir.faults > old(dir.faults))
      ensures closed == (old(closed) || e.Broken?) && |dir.views| > 0
      ensures e.Broken? ==> Unready(old(dir.Image()), n, id)
      ensures e.Broken? ==> forall i :: Survivor(dir.views, i) ==> ActivateCut(old(dir.Image()), n, i)
    {
      ghost var i0 := dir.Image();
      ghost var x0 := Memory();
      GoodFacts(limits, i0, x0, owner);
      ActivateGood(limits, i0, x0, owner, n);
      var r := rec.(ready := true);
      assert r == Records(i0)[n].(ready := true);
      var ok := dir.Replace(ReplacePending, Lrec(n), Record(r), true);
      if !ok {
        closed := true;
        return Broken;
      }
      names := Sort(names + [n]);
      assert Memory() == x0.(names := Sort(x0.names + [n]));
      return Done;
    }

    /**
    Only the current head is acknowledged, and it is gone for good once this succeeds.  A
    head that can be read is acknowledged unless a call fails.
    */
    method Ack(cancelled: bool, n: nat) returns (e: Effect)
      requires Valid()
      modifies this, dir
      ensures e.Done? ==> !cancelled && !closed && old(names) != [] && old(names)[0] == n && names == old(names)[1..]
      ensures e.Done? ==> Valid() && n in old(Contents()).recs && Contents() == Without(old(Contents()), n)
      ensures e.Untouched? ==> dir.views == old(dir.views) && (!dir.halted ==> Valid())
      ensures dir.faults >= old(dir.faults)
      ensures e.Done? <==> (&& !cancelled && !old(closed) && old(names) != [] && old(names)[0] == n && old(Legible(n))
                            && dir.faults == old(dir.faults))
      ensures closed == (old(closed) || e.Broken?)
      ensures |dir.views| > 0
      ensures e.Broken? ==> forall i :: Survivor(dir.views, i) ==> AckCut(old(dir.Image()), n, i)
    {
      ghost var i0 := dir.Image();
      ghost var x0 := Memory();
      GoodFacts(limits, i0, x0, owner);
      if cancelled || closed || names == [] || names[0] != n {
        return Untouched;
      }
      assert n in names;
      var file := dir.Read(Lrec(n));
      if !Readable(file) || !IsRecord(file) {
        return Untouched;
      }
      AckGood(limits, i0, x0, owner, n);
      var removed, ok := dir.Drop(Lrec(n));
      if !removed {
        return Untouched;
      }
      if !ok {
        closed := true;
        return Broken;
      }
      ForgetHead(file.value.rec.id, Size(file));
      return Done;
    }

    method ForgetHead(id: Id, size: nat)
      requires names != []
      modifies `names, `admissions, `bytes, `count, `owner
      ensures Memory() == WithoutHead(old(Memory()), id, size) && owner == old(owner) - {old(names)[0]}
    {
      admissions := admissions - {id};
      owner := owner - {names[0]};
      names := names[1..];
      count := count - 1;
      bytes := bytes - Charge(size);
    }

    /**
    Peek at the head.  Heads that no longer decode are kept aside first, and cost
    nothing but themselves.  Without a cancellation, of which the caller is asked before
    every look, an open spool gives its head or says that none is ready, unless a call
    fails or a head is too long to read.
    */
    method Next(cancels: nat -> bool) returns (p: Peek)
      requires Valid()
      modifies this, dir
      ensures p.Item? ==> (&& IsHead(old(Contents()), p.n) && old(Contents()).recs[p.n].payload == p.payload
                           && names != [] && names[0] == p.n && !closed)
      ensures p.PeekRefused? ==> closed || exists k :: cancels(k)
      ensures p.PeekFailed? ==> dir.faults > old(dir.faults) || exists n :: n in old(names) && Overlong(old(dir.Image()), n)
      ensures dir.faults >= old(dir.faults) && (!p.PeekFailed? ==> dir.faults == old(dir.faults))
      ensures !p.PeekFailed? ==> corrupt - old(corrupt) == |old(names)| - |names|
      ensures p.Waiting? ==> forall n :: n in old(Contents()).recs ==> !old(Contents()).recs[n].ready
      ensures p.Item? || p.Waiting? || p.PeekRefused? ==>
                Valid() && Contents() == old(Contents()) && Aside(old(dir.Image()), dir.Image())
      ensures closed == old(closed) && next == old(next)
      ensures |dir.views| > 0
      ensures forall i :: Survivor(dir.views, i) ==> Logical(i) == old(Contents())
    {
      SettledSurvivors();
      var rounds := 0;
      while true
        invariant dir.faults == old(dir.faults) && (forall n :: n in names ==> n in old(names))
        invariant corrupt - old(corrupt) == |old(names)| - |names|
        invariant Valid() && Contents() == old(Contents()) && Aside(old(dir.Image()), dir.Image())
        invariant closed == old(closed) && next == old(next)
        invariant forall i :: Survivor(dir.views, i) ==> Logical(i) == old(Contents())
        decreases |names|
      {
        if cancels(rounds) || closed {
          return PeekRefused;
        }
        rounds := rounds + 1;
        HeadGood(limits, dir.Image(), Memory(), owner);
        if names == [] {
          return Waiting;
        }
        GoodFacts(limits, dir.Image(), Memory(), owner);
        assert names[0] in names;
        var file := dir.Read(Lrec(names[0]));
        if !Readable(file) {
          assert Overlong(old(dir.Image()), names[0]);
          return PeekFailed;
        }
        if IsRecord(file) {
          return Item(names[0], file.value.rec.payload);
        }
        AsideStep(old(dir.Image()), dir.Image(), names[0]);
        var e := QuarantineHead();
        if !e.Done? {
          return PeekFailed;
        }
      }
    }

    method QuarantineHead() returns (e: Effect)
      requires Valid() && names != [] && Lrec(names[0]) in dir.Image() && !IsRecord(dir.Image()[Lrec(names[0])])
      modifies this, dir
      ensures e.Done? ==> Valid() && names == old(names)[1..] && Contents() == old(Contents())
      ensures e.Done? ==> dir.Image() == Moved(old(dir.Image()), Lrec(old(names)[0]), Bad(old(names)[0])) && corrupt == old(corrupt) + 1
      ensures dir.faults >= old(dir.faults) && (e.Done? <==> dir.faults == old(dir.faults))
      ensures closed == old(closed) && next == old(next)
      ensures |dir.views| > 0
      ensures forall i :: Survivor(dir.views, i) ==> Logical(i) == old(Contents())
    {
      SettledSurvivors();
      ghost var i0 := dir.Image();
      var n := names[0];
      OwnerOf(limits, i0, Memory(), owner, n);
      var id :| id in admissions && admissions[id] == n;
      QuarantineGood(limits, i0, Memory(), owner, n, id);
      var size := Size(dir.Read(Lrec(n)));
      var moved, ok := dir.Commit(Lrec(n), Bad(n));
      if moved { corrupt := corrupt + 1; }
      if !ok {
        return if moved then Broken else Untouched;
      }
      ForgetHead(id, size);
      return Done;
    }

    lemma SettledSurvivors()
      requires dir.Settled()
      ensures forall i :: Survivor(dir.views, i) <==> i == dir.Image()
    {
      forall i
        ensures Survivor(dir.views, i) <==> i == dir.Image()
      {
        SettledSurvivor(dir.views[0], i);
        assert dir.views == [dir.views[0]];
      }
    }

    method Close()
      modifies `closed
      ensures closed
    {
      closed := true;
    }
  }
}
