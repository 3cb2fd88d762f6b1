/**
Metrics delivery over the spool's directory: puts, acknowledgements and quarantine cut
anywhere, rot, openings and moves, with the worker between them.  What the directory
goes through is a run of the machine by numbers, and so delivers at least once and in order.
*/
module MetricDeliveryRuns {
  import opened Keys
  import opened Storage
  import opened MetricSpool
  import opened MetricMigration
  import opened MetricAccounts
  import opened MetricOpening
  import opened MetricRuns
  import D = MetricDelivery

  /** The directory, what was acknowledged, what each returned Put had stored, the worker, and the remote. */
  datatype World = World(
    image: MetricImage,
    acked: set<nat>,
    given: map<nat, string>,
    held: Option<D.Held>,
    remote: seq<nat>)

  datatype Move =
    | OnDisk(event: Event, after: MetricImage, returned: bool)
    | Peek(n: nat)
    | Send(ingested: bool, accepted: bool)
    | Release

  ghost predicate Front(i: MetricImage, n: nat) {
    Rec(n) in i && forall m: nat :: Rec(m) in i ==> n <= m
  }

  /** A Put returns once it is complete; only what the remote accepted is acknowledged. */
  ghost predicate Enabled(c: Settings, w: World, m: Move) {
    match m
    case OnDisk(e, j, returned) =>
      && Steps(c, w.image, e, j)
      && (returned ==> e.Putting? && j == Put(w.image, c.version, c.scope, e.data))
      && (e.Acking? ==> w.held == Some(D.Held(e.n, true)))
      && (e.Asiding? ==> w.held.None? && Front(w.image, e.n))
    case Peek(n) => w.held.None? && Front(w.image, n) && IsPayload(w.image[Rec(n)])
    case Send(ingested, accepted) => w.held.Some? && (accepted ==> ingested)
    case Release => true
  }

  /** The record of an event is gone from the directory after it. */
  predicate Gone(w: World, m: Move) {
    m.OnDisk? && m.event.Acking? && Rec(m.event.n) in w.image && Rec(m.event.n) !in m.after
  }

  ghost function Apply(c: Settings, w: World, m: Move): World
    requires Enabled(c, w, m)
  {
    match m
    case OnDisk(e, j, returned) =>
      World(j,
            if Gone(w, m) then w.acked + {e.n} else w.acked,
            if returned then w.given[NextOf(w.image) := e.data] else w.given,
            if e.Opening? || Gone(w, m) then None else w.held,
            w.remote)
    case Peek(n) => w.(held := Some(D.Held(n, false)))
    case Send(ingested, accepted) =>
      w.(held := Some(w.held.value.(accepted := accepted)),
         remote := if ingested then w.remote + [w.held.value.n] else w.remote)
    case Release => w.(held := None)
  }

  // ---------- reading the numbers off the directory ----------

  ghost predicate AreNumbers(i: MetricImage, live: set<nat>, rotten: set<nat>, aside: set<nat>) {
    && (forall n: nat :: n in live <==> Rec(n) in i)
    && (forall n: nat :: n in rotten <==> Rec(n) in i && !IsPayload(i[Rec(n)]))
    && (forall n: nat :: n in aside <==> Bad(n) in i)
  }

  /** The numbers of the records, of those that do not decode, and of those kept aside. */
  ghost function Numbers(i: MetricImage): (r: (set<nat>, set<nat>, set<nat>))
    ensures AreNumbers(i, r.0, r.1, r.2)
  {
    var live := set k | k in i && k.Rec? :: k.n;
    var rotten := set k | k in i && k.Rec? && !IsPayload(i[k]) :: k.n;
    var aside := set k | k in i && k.Bad? :: k.n;
    assert AreNumbers(i, live, rotten, aside);
    var a: set<nat>, b: set<nat>, d: set<nat> :| AreNumbers(i, a, b, d);
    (a, b, d)
  }

  ghost function Of(w: World): D.State {
    var r := Numbers(w.image);
    D.State(NextOf(w.image), r.0, r.1, r.2, w.acked, w.given.Keys, w.held, w.remote)
  }

  /** The step by numbers that a move is, if it is one. */
  ghost function ActionOf(w: World, m: Move): Option<D.Action> {
    match m
    case Peek(n) => Some(D.Action.Peek(n))
    case Send(ingested, accepted) => Some(D.Action.Send(ingested, accepted))
    case Release => Some(D.Action.Release)
    case OnDisk(e, j, returned) =>
      match e
      case Putting(data) =>
        if Rec(NextOf(w.image)) in j then Some(D.Action.Put(returned))
        else if NextOf(j) != NextOf(w.image) then Some(D.Action.Skip) else None
      case Acking(n) => if Gone(w, m) then Some(D.Action.Ack) else None
      case Asiding(n) => if Rec(n) in j then None else Some(D.Action.Aside(n))
      case Rotting(k) =>
        if k.Rec? then Some(D.Action.Rot(k.n))
        else if NextOf(j) != NextOf(w.image) then Some(D.Action.Skip) else None
      case Opening => Some(D.Action.Reopen(Numbers(w.image).0 - Numbers(j).0))
  }

  /** One set of numbers for one directory. */
  lemma NumbersSame(i: MetricImage, j: MetricImage)
    requires forall n: nat :: (Rec(n) in i <==> Rec(n) in j) && (Bad(n) in i <==> Bad(n) in j)
    requires forall n: nat :: Rec(n) in i ==> (IsPayload(i[Rec(n)]) <==> IsPayload(j[Rec(n)]))
    ensures Numbers(j) == Numbers(i)
  {
    var a, b := Numbers(i), Numbers(j);
    assert a.0 == b.0 && a.1 == b.1 && a.2 == b.2;
  }

  // ---------- what each event does to the numbers ----------

  lemma PutEffect(c: Settings, i: MetricImage, data: string, j: MetricImage)
    requires Openable(c, i) && Steps(c, i, Putting(data), j)
    ensures if Rec(NextOf(i)) in j then j == Put(i, c.version, c.scope, data) && NextOf(j) == NextOf(i) + 1
            else SameRecordFiles(i, j) && NextOf(i) <= NextOf(j) <= NextOf(i) + 1
    ensures Rec(NextOf(i)) !in i && Bad(NextOf(i)) !in i
    ensures j == Put(i, c.version, c.scope, data) ==> Rec(NextOf(i)) in j
  {
    assert Look(MetricsKey, 0);
    NextFree(i, c.version, c.scope);
    PutCutSafe(i, c.version, c.scope, data, j);
    PutCutFiles(c, i, data, j);
    PlacedSafe(i, c.version, c.scope, data);
    assert Logical(j).next == NextOf(j) && Logical(i).next == NextOf(i);
    assert NextOf(Put(i, c.version, c.scope, data)) == Logical(Put(i, c.version, c.scope, data)).next;
  }

  lemma PutFiles(c: Settings, i: MetricImage, data: string)
    ensures var j, n := Put(i, c.version, c.scope, data), NextOf(i);
            && (forall m: nat :: Rec(m) in j <==> Rec(m) in i || m == n) && (forall m: nat :: Bad(m) in j <==> Bad(m) in i)
            && (forall m: nat :: m != n && Rec(m) in i ==> j[Rec(m)] == i[Rec(m)])
            && j[Rec(n)] == Whole(Payload(data))
  {
  }

  lemma PutNumbers(c: Settings, i: MetricImage, data: string)
    requires Rec(NextOf(i)) !in i
    ensures var a, b := Numbers(i), Numbers(Put(i, c.version, c.scope, data));
            b.0 == a.0 + {NextOf(i)} && b.1 == a.1 && b.2 == a.2
  {
    PutFiles(c, i, data);
    var a, b := Numbers(i), Numbers(Put(i, c.version, c.scope, data));
    assert b.0 == a.0 + {NextOf(i)};
    assert b.1 == a.1;
    assert b.2 == a.2;
  }

  lemma PutRefines(c: Settings, w: World, m: Move)
    requires Openable(c, w.image) && D.Inv(Of(w)) && Enabled(c, w, m) && m.OnDisk? && m.event.Putting?
    ensures Refines(c, w, m)
  {
    var i, j := w.image, m.after;
    PutEffect(c, i, m.event.data, j);
    if Rec(NextOf(i)) in j {
      PutNumbers(c, i, m.event.data);
      assert m.returned ==> w.given[NextOf(i) := m.event.data].Keys == w.given.Keys + {NextOf(i)};
    } else {
      NumbersSame(i, j);
    }
  }

  /** The move is the step by numbers that ActionOf says, or changes no number. */
  ghost predicate Refines(c: Settings, w: World, m: Move)
    requires Enabled(c, w, m)
  {
    var a := ActionOf(w, m);
    if a.None? then Of(Apply(c, w, m)) == Of(w)
    else D.Enabled(Of(w), a.value) && Of(Apply(c, w, m)) == D.Apply(Of(w), a.value)
  }

  lemma RemovedNumbers(i: MetricImage, n: nat)
    ensures var a, b := Numbers(i), Numbers(i - {Rec(n)});
            b.0 == a.0 - {n} && b.1 == a.1 - {n} && b.2 == a.2
  {
    var a, b := Numbers(i), Numbers(i - {Rec(n)});
    assert b.0 == a.0 - {n};
    assert b.1 == a.1 - {n};
    assert b.2 == a.2;
  }

  lemma AckRefines(c: Settings, w: World, m: Move)
    requires Openable(c, w.image) && D.Inv(Of(w)) && Enabled(c, w, m) && m.OnDisk? && m.event.Acking?
    ensures Refines(c, w, m)
  {
    AckEffect(c, w.image, m.event.n, m.after);
    RemovedNumbers(w.image, m.event.n);
  }

  lemma AckEffect(c: Settings, i: MetricImage, n: nat, j: MetricImage)
    requires Steps(c, i, Acking(n), j)
    ensures j == i || (j == i - {Rec(n)} && NextOf(j) == NextOf(i))
    ensures Rec(n) !in i ==> j == i
  {
    assert Look(MetricsKey, 0);
  }

  lemma AsideNumbers(i: MetricImage, n: nat)
    requires Rec(n) in i
    ensures var a, b := Numbers(i), Numbers(Moved(i, Rec(n), Bad(n)));
            b.0 == a.0 - {n} && b.1 == a.1 - {n} && b.2 == a.2 + {n}
  {
    var a, b := Numbers(i), Numbers(Moved(i, Rec(n), Bad(n)));
    assert b.0 == a.0 - {n};
    assert b.1 == a.1 - {n};
    assert b.2 == a.2 + {n};
  }

  lemma AsideEffect(c: Settings, i: MetricImage, n: nat, j: MetricImage)
    requires Steps(c, i, Asiding(n), j)
    ensures Rec(n) in i && !IsPayload(i[Rec(n)]) && (j == i || (j == Moved(i, Rec(n), Bad(n)) && NextOf(j) == NextOf(i)))
  {
    assert Look(MetricsKey, 0);
  }

  lemma AsideRefines(c: Settings, w: World, m: Move)
    requires Openable(c, w.image) && D.Inv(Of(w)) && Enabled(c, w, m) && m.OnDisk? && m.event.Asiding?
    ensures Refines(c, w, m)
  {
    AsideEffect(c, w.image, m.event.n, m.after);
    AsideNumbers(w.image, m.event.n);
  }

  lemma RotNumbers(i: MetricImage, n: nat, j: MetricImage)
    requires Rec(n) in i && j == i[Rec(n) := Torn(Size(i[Rec(n)]))]
    ensures var a, b := Numbers(i), Numbers(j); b.0 == a.0 && b.1 == a.1 + {n} && b.2 == a.2
  {
    var a, b := Numbers(i), Numbers(j);
    assert b.0 == a.0;
    assert b.1 == a.1 + {n};
    assert b.2 == a.2;
  }

  lemma RotEffect(c: Settings, i: MetricImage, k: MetricName, j: MetricImage)
    requires Steps(c, i, Rotting(k), j)
    ensures k in i && j == i[k := Torn(Size(i[k]))] && !k.Bad?
    ensures if k.Rec? then NextOf(j) == NextOf(i) else NextOf(i) <= NextOf(j) <= NextOf(i) + 1
  {
    assert Look(MetricsKey, 0);
    RotKnown(c, i, k, j);
    assert Logical(j).next == NextOf(j) && Logical(i).next == NextOf(i);
  }

  lemma RotRefines(c: Settings, w: World, m: Move)
    requires Openable(c, w.image) && D.Inv(Of(w)) && Enabled(c, w, m) && m.OnDisk? && m.event.Rotting?
    ensures Refines(c, w, m)
  {
    RotEffect(c, w.image, m.event.k, m.after);
    if m.event.k.Rec? {
      RotNumbers(w.image, m.event.k.n, m.after);
    } else {
      NumbersSame(w.image, m.after);
    }
  }

  lemma OpenNumbers(i: MetricImage, j: MetricImage)
    requires Apart(i, j)
    ensures var a, b := Numbers(i), Numbers(j);
            var moved := a.0 - b.0;
            moved <= a.1 && b.0 == a.0 - moved && b.1 == a.1 - moved && b.2 == a.2 + moved
  {
    var a, b := Numbers(i), Numbers(j);
    var moved := a.0 - b.0;
    assert b.0 == a.0 - moved;
    assert b.1 == a.1 - moved;
    assert b.2 == a.2 + moved;
  }

  lemma OpenEffect(c: Settings, i: MetricImage, j: MetricImage)
    requires Steps(c, i, Opening, j)
    ensures Apart(i, j) && NextOf(j) == NextOf(i)
  {
    assert Look(MetricsKey, 0) && Look(KeptKey, 0);
    assert Logical(j).next == NextOf(j) && Logical(i).next == NextOf(i);
  }

  lemma OpenRefines(c: Settings, w: World, m: Move)
    requires Openable(c, w.image) && D.Inv(Of(w)) && Enabled(c, w, m) && m.OnDisk? && m.event.Opening?
    ensures Refines(c, w, m)
  {
    OpenEffect(c, w.image, m.after);
    OpenNumbers(w.image, m.after);
  }

  lemma WorkerRefines(c: Settings, w: World, m: Move)
    requires D.Inv(Of(w)) && Enabled(c, w, m) && !m.OnDisk?
    ensures Refines(c, w, m)
  {
  }

  /**
  Every event of the spool under the worker's permission, and every step of the worker,
  is one step by numbers, or none; and the directory stays one that opens.
  */
  lemma MoveRefines(c: Settings, w: World, m: Move)
    requires Openable(c, w.image) && D.Inv(Of(w)) && Enabled(c, w, m)
    ensures Refines(c, w, m) && Openable(c, Apply(c, w, m).image)
  {
    match m
    case OnDisk(e, j, _) =>
      StepSafe(c, w.image, e, j);
      match e {
        case Putting(_) => PutRefines(c, w, m);
        case Acking(_) => AckRefines(c, w, m);
        case Asiding(_) => AsideRefines(c, w, m);
        case Rotting(_) => RotRefines(c, w, m);
        case Opening => OpenRefines(c, w, m);
      }
    case _ => WorkerRefines(c, w, m);
  }

  // ---------- bytes ----------

  /** A record that decodes holds what its Put was given. */
  ghost predicate Faithful(w: World) {
    forall n :: n in w.given ==>
      n < NextOf(w.image) && (Rec(n) in w.image && IsPayload(w.image[Rec(n)]) ==> w.image[Rec(n)] == Whole(Payload(w.given[n])))
  }

  lemma FaithfulFrame(w: World, x: World)
    requires Faithful(w) && x.given == w.given && NextOf(w.image) <= NextOf(x.image)
    requires forall n: nat :: Rec(n) in x.image && IsPayload(x.image[Rec(n)]) ==> Rec(n) in w.image && w.image[Rec(n)] == x.image[Rec(n)]
    ensures Faithful(x)
  {
  }

  lemma FaithfulPut(c: Settings, w: World, m: Move)
    requires Openable(c, w.image) && Faithful(w) && Enabled(c, w, m) && m.OnDisk? && m.event.Putting?
    ensures Faithful(Apply(c, w, m))
  {
    PutEffect(c, w.image, m.event.data, m.after);
    if Rec(NextOf(w.image)) in m.after {
      PutFiles(c, w.image, m.event.data);
    } else {
      FaithfulFrame(w, Apply(c, w, m));
    }
  }

  lemma FaithfulStep(c: Settings, w: World, m: Move)
    requires Openable(c, w.image) && Faithful(w) && Enabled(c, w, m)
    ensures Faithful(Apply(c, w, m))
  {
    if m.OnDisk? {
      match m.event {
        case Putting(_) => FaithfulPut(c, w, m);
        case Acking(n) =>
          AckEffect(c, w.image, n, m.after);
          FaithfulFrame(w, Apply(c, w, m));
        case Asiding(n) =>
          AsideEffect(c, w.image, n, m.after);
          FaithfulFrame(w, Apply(c, w, m));
        case Rotting(k) =>
          RotEffect(c, w.image, k, m.after);
          FaithfulFrame(w, Apply(c, w, m));
        case Opening =>
          OpenEffect(c, w.image, m.after);
          FaithfulFrame(w, Apply(c, w, m));
      }
    }
  }

  // ---------- whole runs ----------

  ghost predicate Legal(c: Settings, w: World, run: seq<Move>)
    decreases |run|
  {
    run == [] || (Enabled(c, w, run[0]) && Legal(c, Apply(c, w, run[0]), run[1..]))
  }

  ghost function Run(c: Settings, w: World, run: seq<Move>): World
    requires Legal(c, w, run)
    decreases |run|
  {
    if run == [] then w else Run(c, Apply(c, w, run[0]), run[1..])
  }

  /** A directory as found. */
  function First(i: MetricImage): World { World(i, {}, map[], None, []) }

  ghost predicate Ok(c: Settings, w: World) {
    Openable(c, w.image) && D.Inv(Of(w)) && Faithful(w)
  }

  lemma FirstOk(c: Settings, i: MetricImage)
    requires Openable(c, i)
    ensures Ok(c, First(i)) && D.Begins(Of(First(i)))
  {
    assert Look(MetricsKey, 0);
    RecordsBelow(c, i);
    NeverBoth(c, i);
  }

  lemma NeverBoth(c: Settings, i: MetricImage)
    requires Known(c, i)
    ensures forall n: nat :: Rec(n) in i ==> Bad(n) !in i
  {
  }

  lemma StepOk(c: Settings, w: World, m: Move)
    requires Ok(c, w) && Enabled(c, w, m)
    ensures Ok(c, Apply(c, w, m))
  {
    MoveRefines(c, w, m);
    FaithfulStep(c, w, m);
    if ActionOf(w, m).Some? { D.StepInv(Of(w), ActionOf(w, m).value); }
  }

  lemma {:induction false} RunOk(c: Settings, w: World, run: seq<Move>)
    requires Ok(c, w) && Legal(c, w, run)
    ensures Ok(c, Run(c, w, run))
    decreases |run|
  {
    if run != [] {
      StepOk(c, w, run[0]);
      RunOk(c, Apply(c, w, run[0]), run[1..]);
    }
  }

  /** What was peeked is still the front of the directory when it is acknowledged. */
  lemma HeadStable(c: Settings, i: MetricImage, run: seq<Move>)
    requires Openable(c, i) && Legal(c, First(i), run)
    ensures var w := Run(c, First(i), run); w.held.Some? ==> Front(w.image, w.held.value.n)
  {
    FirstOk(c, i);
    RunOk(c, First(i), run);
  }

  /** The remote ingests records in the order they were put, repeats aside. */
  lemma IngestedInOrder(c: Settings, i: MetricImage, run: seq<Move>)
    requires Openable(c, i) && Legal(c, First(i), run)
    ensures D.NonDecreasing(Run(c, First(i), run).remote)
  {
    FirstOk(c, i);
    RunOk(c, First(i), run);
  }

  /**
  At least once.  Whatever the directory went through, every batch whose Put returned is
  in it with its own bytes, or was acknowledged after the remote took it, unless it no
  longer decodes, and then it is there or kept aside.
  */
  lemma AtLeastOnce(c: Settings, i: MetricImage, run: seq<Move>, n: nat)
    requires Openable(c, i) && Legal(c, First(i), run) && n in Run(c, First(i), run).given
    ensures var w := Run(c, First(i), run);
            || (Rec(n) in w.image && (IsPayload(w.image[Rec(n)]) ==> w.image[Rec(n)] == Whole(Payload(w.given[n]))))
            || Bad(n) in w.image
            || (n in w.acked && n in w.remote)
  {
    FirstOk(c, i);
    RunOk(c, First(i), run);
    var w := Run(c, First(i), run);
    assert n in Of(w).given;
  }

  /** A number that was returned is below the next one, and no record of another Put has it. */
  lemma GivenOnce(c: Settings, i: MetricImage, run: seq<Move>, n: nat)
    requires Openable(c, i) && Legal(c, First(i), run) && n in Run(c, First(i), run).given
    ensures n < NextOf(Run(c, First(i), run).image)
  {
    FirstOk(c, i);
    RunOk(c, First(i), run);
  }

  /** How many records appeared. */
  ghost function Appeared(c: Settings, w: World, run: seq<Move>): nat
    requires Legal(c, w, run)
    decreases |run|
  {
    if run == [] then 0
    else
      (if ActionOf(w, run[0]).Some? && ActionOf(w, run[0]).value.Put? then 1 else 0)
      + Appeared(c, Apply(c, w, run[0]), run[1..])
  }

  ghost function Counted(w: World): nat { |w.acked| + |Numbers(w.image).0| + |Numbers(w.image).2| }

  lemma {:induction false} Balance(c: Settings, w: World, run: seq<Move>)
    requires Ok(c, w) && Legal(c, w, run)
    ensures Counted(w) + Appeared(c, w, run) == Counted(Run(c, w, run))
    decreases |run|
  {
    if run != [] {
      MoveRefines(c, w, run[0]);
      if ActionOf(w, run[0]).Some? { D.StepBalance(Of(w), ActionOf(w, run[0]).value); }
      StepOk(c, w, run[0]);
      Balance(c, Apply(c, w, run[0]), run[1..]);
    }
  }

  /** Records found, quarantined ones included, and records that appeared, are those acknowledged or still in the directory. */
  lemma Conservation(c: Settings, i: MetricImage, run: seq<Move>)
    requires Openable(c, i) && Legal(c, First(i), run)
    ensures var w := Run(c, First(i), run);
            |Numbers(i).0| + |Numbers(i).2| + Appeared(c, First(i), run)
            == |w.acked| + |Numbers(w.image).0| + |Numbers(w.image).2|
  {
    FirstOk(c, i);
    Balance(c, First(i), run);
  }

  // ---------- the chain of images ----------

  /** The images a run passes through, and the events between them. */
  ghost function Images(c: Settings, w: World, run: seq<Move>): (r: seq<MetricImage>)
    requires Legal(c, w, run)
    ensures r != [] && r[0] == w.image
    decreases |run|
  {
    if run == [] then [w.image]
    else if run[0].OnDisk? then [w.image] + Images(c, Apply(c, w, run[0]), run[1..])
    else Images(c, Apply(c, w, run[0]), run[1..])
  }

  function Events(run: seq<Move>): seq<Event> {
    if run == [] then []
    else if run[0].OnDisk? then [run[0].event] + Events(run[1..])
    else Events(run[1..])
  }

  /** They are a chain of the spool. */
  lemma {:induction false} RunIsChain(c: Settings, w: World, run: seq<Move>)
    requires Ok(c, w) && Legal(c, w, run)
    ensures Chain(c, Images(c, w, run), Events(run))
    decreases |run|
  {
    if run != [] {
      var x := Apply(c, w, run[0]);
      StepOk(c, w, run[0]);
      RunIsChain(c, x, run[1..]);
      if run[0].OnDisk? {
        ChainFront(c, w.image, run[0].event, Images(c, x, run[1..]), Events(run[1..]));
      }
    }
  }

  lemma ChainFront(c: Settings, i: MetricImage, e: Event, images: seq<MetricImage>, events: seq<Event>)
    requires Chain(c, images, events) && Openable(c, i) && Steps(c, i, e, images[0])
    ensures Chain(c, [i] + images, [e] + events)
  {
    var more, all := [i] + images, [e] + events;
    forall k | 0 <= k < |all|
      ensures Steps(c, more[k], all[k], more[k + 1])
    {
      if k > 0 { assert Steps(c, images[k - 1], events[k - 1], images[k]); }
    }
  }
}
