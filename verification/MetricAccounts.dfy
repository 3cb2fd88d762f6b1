/**
The metrics index: what it says of a directory, and how each operation keeps it exact.
*/
module MetricAccounts {
  import opened Keys
  import opened Storage
  import opened SpoolAccounts
  import opened SpoolNames
  import opened MetricSpool
  import opened MetricMigration

  /** Settings of a spool; legacy is the version 1 scope it may be moved from. */
  datatype Settings = Settings(version: nat, scope: string, legacy: string, maxBytes: int, maxItems: nat)

  /** Space kept for control files, directory entries, and migration stages. */
  function Overhead(c: Settings): nat {
    16384 + Charge(c.maxItems * 256) + if c.version == 2 then 8192 else 0
  }

  function CostOf(i: MetricImage): nat -> nat {
    (n: nat) => (if Rec(n) in i then Charge(Size(i[Rec(n)])) else 0) + (if Bad(n) in i then Charge(Size(i[Bad(n)])) else 0)
  }

  function OneOf(i: MetricImage): nat -> nat {
    (n: nat) => (if Rec(n) in i then 1 else 0) + (if Bad(n) in i then 1 else 0)
  }

  /** Space taken by records, quarantined ones included, and their number. */
  function Space(i: MetricImage): nat { Total(CostOf(i), NextOf(i)) }
  function Number(i: MetricImage): nat { Total(OneOf(i), NextOf(i)) }

  ghost predicate Room(c: Settings, i: MetricImage) {
    Overhead(c) + Space(i) <= c.maxBytes && Number(i) <= c.maxItems
  }

  datatype MetricIndex = MetricIndex(next: nat, names: seq<nat>, bytes: int, count: int, corrupt: nat)

  /** The index and the directory agree exactly, within both bounds. */
  ghost predicate Coherent(key: nat, c: Settings, i: MetricImage, x: MetricIndex) {
    && Clean(i, c.version, c.scope)
    && x.next == NextOf(i)
    && Increasing(x.names) && (forall n :: n in x.names <==> Rec(n) in i)
    && x.bytes == Overhead(c) + Space(i) <= c.maxBytes
    && x.count == Number(i) <= c.maxItems
    && x.count == |x.names| + x.corrupt
  }

  ghost predicate Good(c: Settings, i: MetricImage, x: MetricIndex) {
    forall k: nat {:trigger Look(MetricsKey, k)} :: Look(MetricsKey, k) ==> Coherent(k, c, i, x)
  }

  /** One directory, one index: what reopening builds is what was in memory. */
  lemma IndexUnique(c: Settings, i: MetricImage, x: MetricIndex, y: MetricIndex)
    requires Good(c, i, x) && Good(c, i, y)
    ensures x == y
  {
    assert Look(MetricsKey, 0);
    IncreasingUnique(x.names, y.names);
  }

  lemma GoodFacts(c: Settings, i: MetricImage, x: MetricIndex)
    requires Good(c, i, x)
    ensures x.next == NextOf(i) && Pending !in i
    ensures forall n :: n in x.names <==> Rec(n) in i
    ensures x.bytes <= c.maxBytes && x.count <= c.maxItems && x.count == |x.names| + x.corrupt
  {
    assert Look(MetricsKey, 0);
  }

  lemma NextBounded(c: Settings, i: MetricImage, x: MetricIndex)
    requires Good(c, i, x)
    ensures 1 <= x.next <= LAST
  {
    assert Look(MetricsKey, 0);
    assert Loads(i, Json) || Loads(i, Backup);
  }

  lemma PutSpace(c: Settings, i: MetricImage, data: string)
    requires Clean(i, c.version, c.scope) && NextOf(i) < LAST
    ensures var j := Put(i, c.version, c.scope, data);
            && NextOf(j) == NextOf(i) + 1
            && Space(j) == Space(i) + Charge(RecordSize(data)) && Number(j) == Number(i) + 1
  {
    var j, n := Put(i, c.version, c.scope, data), NextOf(i);
    NextFree(i, c.version, c.scope);
    TotalFrame(CostOf(i), CostOf(j), n);
    TotalFrame(OneOf(i), OneOf(j), n);
    assert CostOf(j)(n) == Charge(RecordSize(data)) && OneOf(j)(n) == 1;
  }

  lemma PutNames(c: Settings, i: MetricImage, data: string, names: seq<nat>)
    requires Clean(i, c.version, c.scope) && Increasing(names) && forall n :: n in names <==> Rec(n) in i
    ensures var j := Put(i, c.version, c.scope, data);
            Increasing(names + [NextOf(i)]) && forall n :: n in names + [NextOf(i)] <==> Rec(n) in j
  {
    forall k | 0 <= k < |names|
      ensures names[k] < NextOf(i)
    {
      assert names[k] in names;
      SequencesBelow(i, c.version, c.scope, names[k]);
    }
  }

  lemma PutGood(c: Settings, i: MetricImage, x: MetricIndex, data: string)
    requires Good(c, i, x) && x.next < LAST
    requires x.count < c.maxItems && x.bytes + Charge(RecordSize(data)) <= c.maxBytes
    ensures Good(c, Put(i, c.version, c.scope, data),
                 MetricIndex(x.next + 1, x.names + [x.next], x.bytes + Charge(RecordSize(data)), x.count + 1, x.corrupt))
    ensures Logical(Put(i, c.version, c.scope, data)) == Append(Logical(i), data)
  {
    assert Look(MetricsKey, 0);
    PlacedSafe(i, c.version, c.scope, data);
    PutSpace(c, i, data);
    PutNames(c, i, data, x.names);
  }

  function WithoutHead(x: MetricIndex, size: nat): MetricIndex
    requires x.names != []
  {
    MetricIndex(x.next, x.names[1..], x.bytes - Charge(size), x.count - 1, x.corrupt)
  }

  lemma TailNames(names: seq<nat>)
    requires names != [] && Increasing(names)
    ensures Increasing(names[1..]) && forall n :: n in names[1..] <==> n in names && n != names[0]
  {
    forall n
      ensures n in names[1..] <==> n in names && n != names[0]
    {
      if n in names[1..] {
        var k :| 0 <= k < |names[1..]| && names[1..][k] == n;
        assert names[k + 1] == n;
      }
      assert names == [names[0]] + names[1..];
    }
  }

  lemma AckSpace(c: Settings, i: MetricImage, n: nat)
    requires Clean(i, c.version, c.scope) && Rec(n) in i
    ensures var j := i - {Rec(n)};
            NextOf(j) == NextOf(i) && Space(j) == Space(i) - Charge(Size(i[Rec(n)])) && Number(j) == Number(i) - 1
  {
    var j := i - {Rec(n)};
    SequencesBelow(i, c.version, c.scope, n);
    assert Bad(n) !in i;
    TotalChange(CostOf(i), CostOf(j), n, NextOf(i));
    TotalChange(OneOf(i), OneOf(j), n, NextOf(i));
  }

  lemma AckGood(c: Settings, i: MetricImage, x: MetricIndex)
    requires Good(c, i, x) && x.names != []
    ensures var n := x.names[0];
            && Rec(n) in i
            && Good(c, i - {Rec(n)}, WithoutHead(x, Size(i[Rec(n)])))
            && Logical(i - {Rec(n)}) == Without(Logical(i), n)
  {
    assert Look(MetricsKey, 0);
    var n := x.names[0];
    var j := i - {Rec(n)};
    assert n in x.names;
    TailNames(x.names);
    AckCutSafe(i, c.version, c.scope, n, j);
    AckSpace(c, i, n);
    assert Coherent(0, c, j, WithoutHead(x, Size(i[Rec(n)])));
  }

  /** Moving a record aside keeps its space and its place in the count. */
  lemma AsideSpace(i: MetricImage, n: nat)
    requires Rec(n) in i && Bad(n) !in i
    ensures var j := Moved(i, Rec(n), Bad(n)); NextOf(j) == NextOf(i) && Space(j) == Space(i) && Number(j) == Number(i)
  {
    var j := Moved(i, Rec(n), Bad(n));
    TotalFrame(CostOf(i), CostOf(j), NextOf(i));
    TotalFrame(OneOf(i), OneOf(j), NextOf(i));
  }

  function WithoutRotten(x: MetricIndex): MetricIndex
    requires x.names != []
  {
    x.(names := x.names[1..], corrupt := x.corrupt + 1)
  }

  lemma AsideCoherent(c: Settings, i: MetricImage, x: MetricIndex)
    requires Coherent(0, c, i, x) && x.names != []
    requires Rec(x.names[0]) in i && !IsPayload(i[Rec(x.names[0])])
    ensures var j := Moved(i, Rec(x.names[0]), Bad(x.names[0]));
            Coherent(0, c, j, WithoutRotten(x)) && Logical(j) == Logical(i)
  {
    var n := x.names[0];
    TailNames(x.names);
    AsideSafe(i, c.version, c.scope, n);
    AsideSpace(i, n);
  }

  lemma AsideGood(c: Settings, i: MetricImage, x: MetricIndex)
    requires Good(c, i, x) && x.names != []
    requires Rec(x.names[0]) in i && !IsPayload(i[Rec(x.names[0])])
    ensures var j := Moved(i, Rec(x.names[0]), Bad(x.names[0]));
            Good(c, j, WithoutRotten(x)) && Logical(j) == Logical(i)
  {
    assert Look(MetricsKey, 0);
    AsideCoherent(c, i, x);
  }

  /** Rot keeps the index exact: names, space and count do not change. */
  lemma RotGood(c: Settings, i: MetricImage, x: MetricIndex, n: nat)
    requires Good(c, i, x) && Rec(n) in i && Rots(i, Rec(n), i[Rec(n) := Torn(Size(i[Rec(n)]))])
    ensures var j := i[Rec(n) := Torn(Size(i[Rec(n)]))];
            Good(c, j, x) && Logical(j) == Without(Logical(i), n)
  {
    assert Look(MetricsKey, 0);
    var j := i[Rec(n) := Torn(Size(i[Rec(n)]))];
    RotSafe(i, c.version, c.scope, Rec(n), j);
    assert NextOf(j) == NextOf(i);
    TotalFrame(CostOf(i), CostOf(j), NextOf(i));
    TotalFrame(OneOf(i), OneOf(j), NextOf(i));
  }

  /** The head is the oldest record; one that no longer decodes counts as none. */
  lemma HeadOldest(c: Settings, i: MetricImage, x: MetricIndex)
    requires Good(c, i, x)
    ensures x.names == [] ==> Logical(i).recs == map[]
    ensures x.names != [] ==> Rec(x.names[0]) in i && forall n :: n in Logical(i).recs ==> x.names[0] <= n
    ensures x.names != [] && IsPayload(i[Rec(x.names[0])]) ==>
              x.names[0] in Logical(i).recs && Logical(i).recs[x.names[0]] == i[Rec(x.names[0])].value.data
  {
    assert Look(MetricsKey, 0);
    if x.names != [] {
      assert x.names[0] in x.names;
      forall n | n in Logical(i).recs
        ensures x.names[0] <= n
      {
        assert n in x.names;
      }
    } else {
      assert forall n :: n !in x.names;
    }
  }
}
