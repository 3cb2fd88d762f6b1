/**
Exactly when beginning a generation, or reopening a file, can cost the order of delivery.
*/
module HandoffOvertake {
  import opened Keys
  import opened Storage
  import opened LogQueue
  import opened Handoff
  import opened HandoffOrder
  import opened HandoffRuns

  /** No generation is begun, and no file reopened. */
  predicate Calm(run: seq<Action>) {
    forall k :: 0 <= k < |run| ==> !run[k].Note? && !run[k].Reopen?
  }

  ghost predicate LeadsBy(key: nat, src: Source, w: World, run: seq<Action>, x: World) {
    Calm(run) && Legal(src, w, run) && Run(src, w, run) == x
  }

  /** A calm run from w to x. */
  ghost predicate Leads(src: Source, w: World, run: seq<Action>, x: World) {
    forall k: nat {:trigger Look(RunKey, k)} :: Look(RunKey, k) ==> LeadsBy(k, src, w, run, x)
  }

  lemma LeadsNowhere(src: Source, w: World)
    ensures Leads(src, w, [], w)
  {
  }

  lemma LeadsFacts(src: Source, w: World, run: seq<Action>, x: World)
    requires Leads(src, w, run, x)
    ensures Calm(run) && Legal(src, w, run) && Run(src, w, run) == x
  {
    assert Look(RunKey, 0);
  }

  lemma LeadsIntro(src: Source, w: World, run: seq<Action>, x: World)
    requires Calm(run) && Legal(src, w, run) && Run(src, w, run) == x
    ensures Leads(src, w, run, x)
  {
  }

  lemma {:induction false} LeadsOn(src: Source, w: World, run: seq<Action>, x: World, a: Action)
    requires Leads(src, w, run, x) && Enabled(src, x, a) && !a.Note? && !a.Reopen?
    ensures Leads(src, w, run + [a], Apply(src, x, a))
  {
    LeadsFacts(src, w, run, x);
    RunAppend(src, w, run, a);
  }

  lemma {:induction false} LeadsThen(src: Source, w: World, a: seq<Action>, x: World, b: seq<Action>, y: World)
    requires Leads(src, w, a, x) && Leads(src, x, b, y)
    ensures Leads(src, w, a + b, y)
    decreases |b|
  {
    LeadsFacts(src, x, b, y);
    if b == [] {
      assert a + b == a;
    } else {
      LeadsOn(src, w, a, x, b[0]);
      assert Calm(b[1..]);
      LeadsIntro(src, Apply(src, x, b[0]), b[1..], y);
      LeadsThen(src, w, a + [b[0]], Apply(src, x, b[0]), b[1..], y);
      assert a + [b[0]] + b[1..] == a + b;
    }
  }

  lemma {:induction false} LeadsInv(src: Source, w: World, run: seq<Action>, x: World)
    requires Inv(src, w) && Leads(src, w, run, x)
    ensures Inv(src, x)
    decreases |run|
  {
    LeadsFacts(src, w, run, x);
    if run != [] {
      StepInv(src, w, run[0]);
      assert Calm(run[1..]);
      LeadsIntro(src, Apply(src, w, run[0]), run[1..], x);
      LeadsInv(src, Apply(src, w, run[0]), run[1..], x);
    }
  }

  // ---------- a calm run keeps the order that is there ----------

  lemma {:induction false} CalmOrder(src: Source, w: World, run: seq<Action>)
    requires Ok(src, w) && w.aligned && Calm(run) && Legal(src, w, run)
    ensures InOrder(src, Run(src, w, run))
    decreases |run|
  {
    if run != [] {
      StepOk(src, w, run[0]);
      assert Calm(run[1..]) && Apply(src, w, run[0]).aligned;
      CalmOrder(src, Apply(src, w, run[0]), run[1..]);
    }
  }

  // ---------- a left-over admission is overtaken ----------

  /** The reader is at a position of the generation, free to take records; what was sent is unchanged. */
  ghost predicate At(src: Source, w: World, x: World, s: nat) {
    && w.base != [] && Inv(src, x) && !x.hold.Stuck? && GenOf(x.base) == GenOf(w.base) && StartOf(src, x.base) == s
    && x.remote == w.remote && x.twice == w.twice
  }

  /** The records of w are all in x, but for one. */
  ghost predicate Stays(w: World, x: World, but: Option<Id>) {
    forall n :: n in w.queue.recs && Some(IdAt(w, n)) != but ==> n in x.queue.recs && x.queue.recs[n] == w.queue.recs[n]
  }

  /** Take the record from here to an offset, whatever the encoder and the queue say. */
  lemma Fill(src: Source, w: World, to: nat) returns (run: seq<Action>, x: World)
    requires w.base != [] && At(src, w, w, StartOf(src, w.base)) && StartOf(src, w.base) < to && src.starts(GenOf(w.base), to) == to
    ensures Leads(src, w, run, x) && At(src, w, x, to) && Stays(w, x, None)
  {
    var id := Id(src.stream, GenOf(w.base), StartOf(src, w.base), to);
    run, x := [], w;
    LeadsNowhere(src, w);
    if !src.refuses(id) {
      x := EnterRun(src, w, id);
      LeadsOn(src, w, run, w, Admit(id, src.text(id)));
      run := run + [Admit(id, src.text(id))];
      LeadsInv(src, w, run, x);
    }
    var y := TakeRun(src, x, id);
    LeadsOn(src, w, run, x, Save(Take(id), true, true));
    run, x := run + [Save(Take(id), true, true)], y;
  }

  /** The record is in the queue, last if it was not there before. */
  lemma EnterRun(src: Source, w: World, id: Id) returns (x: World)
    requires w.base != [] && At(src, w, w, StartOf(src, w.base)) && Live(src, w, id) && !src.refuses(id)
    ensures Enabled(src, w, Admit(id, src.text(id))) && x == Apply(src, w, Admit(id, src.text(id))) && At(src, w, x, id.start) && x.base == w.base
    ensures Holds(x.queue, id) && Stays(w, x, None)
    ensures !Holds(w.queue, id) ==> w.queue.next in x.queue.recs && IdAt(x, w.queue.next) == id
  {
    x := Apply(src, w, Admit(id, src.text(id)));
    AdmitInv(src, w, id, src.text(id));
    if !Holds(w.queue, id) {
      assert x.queue.recs[w.queue.next].id == id;
    }
  }

  /** The record is committed. */
  lemma TakeRun(src: Source, w: World, id: Id) returns (x: World)
    requires w.base != [] && At(src, w, w, StartOf(src, w.base)) && Live(src, w, id) && Offered(src, w, id)
    ensures Enabled(src, w, Save(Take(id), true, true)) && x == Apply(src, w, Save(Take(id), true, true))
    ensures At(src, w, x, src.starts(GenOf(w.base), id.end)) && x.queue == w.queue && x.memory.id == Some(id)
  {
    x := Apply(src, w, Save(Take(id), true, true));
    SaveInv(src, w, Take(id), true, true);
    MovesTiled(src, w, Take(id));
  }

  /** The record is committed and made ready. */
  lemma CommitRun(src: Source, w: World, m: nat) returns (run: seq<Action>, x: World)
    requires w.base != [] && At(src, w, w, StartOf(src, w.base)) && m in w.queue.recs && Live(src, w, IdAt(w, m))
    ensures Leads(src, w, run, x) && At(src, w, x, src.starts(GenOf(w.base), IdAt(w, m).end))
    ensures Stays(w, x, Some(IdAt(w, m)))
    ensures m in x.queue.recs && IdAt(x, m) == IdAt(w, m) && x.queue.recs[m].ready && x.queue.next == w.queue.next
  {
    var id := IdAt(w, m);
    assert Holds(w.queue, id);
    var y := TakeRun(src, w, id);
    LeadsNowhere(src, w);
    LeadsOn(src, w, [], w, Save(Take(id), true, true));
    run := [] + [Save(Take(id), true, true)];
    LeadsOn(src, w, run, y, Action.Activate(id));
    run := run + [Action.Activate(id)];
    x := ReadyRun(src, y, id);
  }

  lemma ReadyRun(src: Source, y: World, id: Id) returns (x: World)
    requires Inv(src, y) && y.memory.id == Some(id)
    ensures Enabled(src, y, Action.Activate(id)) && x == Apply(src, y, Action.Activate(id)) && Inv(src, x)
    ensures x == y.(queue := LogQueue.Activate(y.queue, id))
  {
    x := Apply(src, y, Action.Activate(id));
    ActivateInv(src, y, id);
  }

  lemma RotRun(src: Source, w: World, k: nat) returns (x: World)
    requires w.base != [] && k in w.queue.recs
    ensures Leads(src, w, [Rot(k)], x) && x == Apply(src, w, Rot(k))
  {
    x := Apply(src, w, Rot(k));
    LeadsNowhere(src, w);
    assert [] + [Rot(k)] == [Rot(k)];
    LeadsOn(src, w, [], w, Rot(k));
  }

  /** Whatever number it was queued under, the record is gone. */
  lemma PurgeRun(src: Source, w: World, id: Id) returns (run: seq<Action>, x: World)
    requires w.base != [] && Inv(src, w)
    ensures Leads(src, w, run, x) && Inv(src, x) && !Holds(x.queue, id) && Stays(w, x, Some(id))
    ensures x == w.(queue := x.queue, rotten := x.rotten) && x.queue.next == w.queue.next
  {
    run, x := [], w;
    LeadsNowhere(src, w);
    if k :| k in w.queue.recs && IdAt(w, k) == id {
      x := RotRun(src, w, k);
      RotInv(src, w, k);
      run := [Rot(k)];
    }
  }

  /** The record is queued anew, under the next number. */
  lemma AnewRun(src: Source, w: World, id: Id) returns (run: seq<Action>, x: World)
    requires w.base != [] && At(src, w, w, StartOf(src, w.base)) && Live(src, w, id) && !src.refuses(id)
    ensures Leads(src, w, run, x) && At(src, w, x, id.start) && x.base == w.base
    ensures Stays(w, x, Some(id))
    ensures w.queue.next in x.queue.recs && IdAt(x, w.queue.next) == id
  {
    var y;
    run, y := PurgeRun(src, w, id);
    x := EnterRun(src, y, id);
    LeadsOn(src, w, run, y, Admit(id, src.text(id)));
    run := run + [Admit(id, src.text(id))];
  }

  /** Everything but two records rots. */
  lemma {:induction false} ClearRun(src: Source, w: World, n: nat, m: nat) returns (run: seq<Action>, x: World)
    requires w.base != [] && n in w.queue.recs && m in w.queue.recs
    ensures Leads(src, w, run, x) && x.base == w.base && x.remote == w.remote && x.twice == w.twice
    ensures OnlyTwo(w.queue, x.queue, n, m)
    decreases |w.queue.recs|
  {
    if w.queue.recs.Keys == {n, m} {
      run, x := [], w;
      LeadsNowhere(src, w);
    } else {
      var k :| k in w.queue.recs && k != n && k != m;
      var y := RotRun(src, w, k);
      WithoutShrinks(w.queue, k);
      var rest;
      rest, x := ClearRun(src, y, n, m);
      LeadsThen(src, w, [Rot(k)], y, rest, x);
      run := [Rot(k)] + rest;
    }
  }

  /** Two records are left, as they were. */
  ghost predicate OnlyTwo(q: Queue, r: Queue, n: nat, m: nat)
    requires n in q.recs && m in q.recs
  {
    r.recs.Keys == {n, m} && r.recs[n] == q.recs[n] && r.recs[m] == q.recs[m]
  }

  lemma WithoutShrinks(q: Queue, k: nat)
    requires k in q.recs
    ensures |Without(q, k).recs| < |q.recs|
  {
    var r := Without(q, k).recs;
    assert r.Keys == q.recs.Keys - {k};
    assert |r| == |r.Keys| && |q.recs| == |q.recs.Keys|;
  }

  /** The worker delivers the lower of two ready records, and then the other. */
  lemma PairRun(src: Source, w: World, n: nat, m: nat) returns (run: seq<Action>, x: World)
    requires w.base != [] && n < m && w.queue.recs.Keys == {n, m} && w.queue.recs[n].ready && w.queue.recs[m].ready
    ensures Leads(src, w, run, x) && x.remote == w.remote + [IdAt(w, n), IdAt(w, m)] && x.twice == w.twice
  {
    LeadsNowhere(src, w);
    LeadsOn(src, w, [], w, Release);
    var w0 := Apply(src, w, Release);
    run := [] + [Release];
    assert IsHead(w0.queue, n);
    var x1;
    run, x1 := HeadRun(src, w, run, w0, n);
    LeadsOn(src, w, run, x1, Rot(n));
    run, x := run + [Rot(n)], Apply(src, x1, Rot(n));
    assert x.queue.recs.Keys == {m} && x.queue.recs[m] == w.queue.recs[m];
    assert IsHead(x.queue, m);
    run, x := HeadRun(src, w, run, x, m);
    assert w.remote + [IdAt(w, n)] + [IdAt(w, m)] == w.remote + [IdAt(w, n), IdAt(w, m)];
  }

  lemma HeadRun(src: Source, w: World, before: seq<Action>, y: World, n: nat) returns (run: seq<Action>, x: World)
    requires Leads(src, w, before, y) && y.worker.Idle? && IsHead(y.queue, n) && y.base != []
    ensures Leads(src, w, run, x) && x == y.(remote := y.remote + [IdAt(y, n)], heard := x.heard)
  {
    LeadsOn(src, w, before, y, Peek(n));
    var y1 := Apply(src, y, Peek(n));
    LeadsOn(src, w, before + [Peek(n)], y1, Send(true));
    var y2 := Apply(src, y1, Send(true));
    LeadsOn(src, w, before + [Peek(n)] + [Send(true)], y2, Release);
    run := before + [Peek(n)] + [Send(true)] + [Release];
    x := Apply(src, y2, Release);
  }

  /** A record of the generation that comes before another one, and is not refused. */
  ghost predicate Between(src: Source, g: nat, from: nat, t: nat, e: nat, to: nat) {
    from <= t < e <= to && src.starts(g, t) == t && src.starts(g, e) <= to && !src.refuses(Id(src.stream, g, t, e))
  }

  /** The reader takes a record that comes before one already queued, and then that one. */
  lemma TakeBoth(src: Source, w: World, n: nat, t: nat, e: nat) returns (run: seq<Action>, x: World, m: nat)
    requires w.base != [] && At(src, w, w, t) && Mine(src, w.queue, n) && IdAt(w, n).gen == GenOf(w.base)
    requires Between(src, GenOf(w.base), t, t, e, IdAt(w, n).start)
    ensures Leads(src, w, run, x) && Inv(src, x) && x.remote == w.remote && x.twice == w.twice
    ensures n < m && n in x.queue.recs && m in x.queue.recs && x.queue.recs[n].ready && x.queue.recs[m].ready
    ensures IdAt(x, n) == IdAt(w, n) && IdAt(x, m) == Id(src.stream, GenOf(w.base), t, e)
  {
    var id := Id(src.stream, GenOf(w.base), t, e);
    m := w.queue.next;
    assert n < m;
    var y;
    run, y := AnewRun(src, w, id);
    var more, z := CommitRun(src, y, m);
    LeadsThen(src, w, run, y, more, z);
    run := run + more;
    assert n in z.queue.recs && z.queue.recs[n] == w.queue.recs[n];
    more, x := TakeNext(src, w, z, n, m, src.starts(GenOf(w.base), e));
    LeadsThen(src, w, run, z, more, x);
    run := run + more;
  }

  /** From any start before it, a queued record is taken up and made ready. */
  lemma TakeNext(src: Source, w: World, z: World, n: nat, m: nat, s: nat) returns (run: seq<Action>, x: World)
    requires At(src, w, z, s) && n in z.queue.recs && m in z.queue.recs && n != m && z.queue.recs[m].ready
    requires Mine(src, z.queue, n) && IdAt(z, n).gen == GenOf(w.base) && s <= IdAt(z, n).start
    ensures Leads(src, z, run, x) && Inv(src, x) && x.remote == w.remote && x.twice == w.twice
    ensures n in x.queue.recs && m in x.queue.recs && x.queue.recs[n].ready && x.queue.recs[m].ready
    ensures IdAt(x, n) == IdAt(z, n) && IdAt(x, m) == IdAt(z, m)
  {
    var y := z;
    run := [];
    LeadsNowhere(src, z);
    assert At(src, z, z, s);
    if s < IdAt(z, n).start {
      run, y := Fill(src, z, IdAt(z, n).start);
    }
    assert Live(src, y, IdAt(y, n));
    var more;
    more, x := CommitRun(src, y, n);
    LeadsThen(src, z, run, y, more, x);
    run := run + more;
  }

  /** A left-over admission with something admissible before it is delivered first. */
  lemma Overtaken(src: Source, w: World, n: nat) returns (run: seq<Action>)
    requires w.base != [] && Inv(src, w) && !w.hold.Stuck? && LeftOver(src, w, n)
    requires StartOf(src, w.base) <= IdAt(w, n).start
    requires !OnlyRefused(src, GenOf(w.base), StartOf(src, w.base), IdAt(w, n).start)
    ensures Calm(run) && Legal(src, w, run) && !InOrder(src, Run(src, w, run))
  {
    var g, s := GenOf(w.base), StartOf(src, w.base);
    var t: nat, e: nat :| s <= t < e <= IdAt(w, n).start && src.starts(g, t) == t && src.starts(g, e) <= IdAt(w, n).start
                          && !src.refuses(Id(src.stream, g, t, e));
    var y := w;
    run := [];
    LeadsNowhere(src, w);
    assert At(src, w, w, s);
    if s < t {
      run, y := Fill(src, w, t);
    }
    assert Between(src, g, t, t, e, IdAt(w, n).start);
    assert Mine(src, y.queue, n) && At(src, y, y, t);
    var more, z, m := TakeBoth(src, y, n, t, e);
    LeadsThen(src, w, run, y, more, z);
    run := run + more;
    run := Backwards(src, w, run, z, n, m);
  }

  /** Two ready records of one generation, numbered against their positions, are delivered that way. */
  lemma Backwards(src: Source, w: World, before: seq<Action>, z: World, n: nat, m: nat) returns (run: seq<Action>)
    requires Inv(src, w) && w.base != [] && Leads(src, w, before, z) && Inv(src, z) && z.twice == w.twice
    requires n < m && n in z.queue.recs && m in z.queue.recs && z.queue.recs[n].ready && z.queue.recs[m].ready
    requires IdAt(z, n).stream == IdAt(z, m).stream == src.stream && IdAt(z, n).gen == IdAt(z, m).gen == GenOf(w.base)
    requires StartOf(src, w.base) <= IdAt(z, m).start < IdAt(z, n).start && IdAt(z, m).start < IdAt(z, m).end
    requires IdAt(z, n).start < IdAt(z, n).end
    ensures Calm(run) && Legal(src, w, run) && !InOrder(src, Run(src, w, run))
  {
    var more, y := ClearRun(src, z, n, m);
    LeadsThen(src, w, before, z, more, y);
    run := before + more;
    assert y.queue.recs.Keys == {n, m};
    var x;
    more, x := PairRun(src, y, n, m);
    LeadsThen(src, w, run, y, more, x);
    run := run + more;
    TiledBehind(w.base);
    assert forall id :: id in w.twice ==> Mark(id) in w.base;
    assert IdAt(z, n) !in x.twice && IdAt(z, m) !in x.twice;
    var k := |y.remote|;
    assert x.remote[k] == IdAt(z, n) && x.remote[k + 1] == IdAt(z, m);
    LeadsFacts(src, w, run, x);
  }

  /** After a restart to a checkpoint that is not near, what the reader admits now is overtaken. */
  lemma NotNear(src: Source, w: World) returns (run: seq<Action>)
    requires w.base != [] && Inv(src, w) && !w.hold.Stuck? && w.disk.ledger != [] && !Near(src, w, w.disk.ledger)
    ensures Calm(run) && Legal(src, w, run) && !InOrder(src, Run(src, w, run))
  {
    var s := StartOf(src, w.base);
    var y: nat :| y > s && !src.refuses(Id(src.stream, GenOf(w.base), s, y));
    var before, z, n := AdmitAndRestart(src, w, Id(src.stream, GenOf(w.base), s, y));
    LeadsInv(src, w, before, z);
    var rest := Overtaken(src, z, n);
    LeadsIntro(src, z, rest, Run(src, z, rest));
    LeadsThen(src, w, before, z, rest, Run(src, z, rest));
    run := before + rest;
    LeadsFacts(src, w, run, Run(src, z, rest));
  }

  lemma AdmitAndRestart(src: Source, w: World, id: Id) returns (run: seq<Action>, z: World, n: nat)
    requires w.base != [] && Inv(src, w) && !w.hold.Stuck? && w.disk.ledger != [] && Live(src, w, id) && !src.refuses(id)
    requires GenOf(w.disk.ledger) == GenOf(w.base) && StartOf(src, w.disk.ledger) <= id.start
    ensures Leads(src, w, run, z) && z.base == w.disk.ledger && z.hold.Free?
    ensures LeftOver(src, z, n) && IdAt(z, n) == id
  {
    assert At(src, w, w, StartOf(src, w.base));
    var v := EnterRun(src, w, id);
    LeadsNowhere(src, w);
    LeadsOn(src, w, [], w, Admit(id, src.text(id)));
    LeadsOn(src, w, [] + [Admit(id, src.text(id))], v, Restart);
    run := [] + [Admit(id, src.text(id))] + [Restart];
    z := Apply(src, v, Restart);
    n :| n in v.queue.recs && v.queue.recs[n].id == id;
    TiledBehind(w.disk.ledger);
  }

  /**
  Beginning a generation, or reopening a file, keeps the order if and only if it is
  straight: no admission left over in that generation has anything admissible between
  the reader's next record and itself, and the durable checkpoint is near.  Otherwise
  some run that does neither again delivers out of order.
  */
  lemma OrderKeptIff(src: Source, w: World, a: Action)
    requires Ok(src, w) && w.aligned && Enabled(src, w, a) && (a.Note? || a.Reopen?)
    ensures Straight(src, Apply(src, w, a))
            <==> forall run | Calm(run) && Legal(src, Apply(src, w, a), run) :: InOrder(src, Run(src, Apply(src, w, a), run))
  {
    var x := Apply(src, w, a);
    StepInv(src, w, a);
    StraightFlag(src, w, a);
    if Straight(src, x) {
      StepOk(src, w, a);
      forall run | Calm(run) && Legal(src, x, run)
        ensures InOrder(src, Run(src, x, run))
      {
        CalmOrder(src, x, run);
      }
    } else {
      var run := Crooked(src, x);
    }
  }

  lemma Crooked(src: Source, x: World) returns (run: seq<Action>)
    requires x.base != [] && Inv(src, x) && !x.hold.Stuck? && !Straight(src, x)
    ensures Calm(run) && Legal(src, x, run) && !InOrder(src, Run(src, x, run))
  {
    if n :| LeftOver(src, x, n) && !(x.queue.recs[n].id.start < StartOf(src, x.base)
              || OnlyRefused(src, GenOf(x.base), StartOf(src, x.base), x.queue.recs[n].id.start)) {
      run := Overtaken(src, x, n);
    } else {
      run := NotNear(src, x);
    }
  }

  /** The flag is exactly what the step leaves straight. */
  lemma StraightFlag(src: Source, w: World, a: Action)
    requires Enabled(src, w, a) && (a.Note? || a.Reopen?)
    ensures var x := Apply(src, w, a); x.base != [] && x.hold.Free? && (x.aligned <==> w.aligned && Straight(src, x))
  {
    var x := Apply(src, w, a);
    var y := x.(aligned := w.aligned);
    assert forall n :: LeftOver(src, x, n) <==> LeftOver(src, y, n);
    assert w.disk.ledger != [] ==> (Near(src, x, w.disk.ledger) <==> Near(src, y, w.disk.ledger));
    assert Straight(src, x) <==> Straight(src, y);
  }

  /**
  A run that loses order: the file is truncated under the reader, whose save then fails;
  it admits past a rejected line, restarts, and takes the file up again in the middle of it.
  */
  lemma MisalignedRun(src: Source)
    requires Regular(src) && src.starts(1, 0) == 10 && src.starts(1, 5) == 5 && src.starts(1, 10) == 10
    requires !src.refuses(Id(src.stream, 1, 5, 10)) && !src.refuses(Id(src.stream, 1, 10, 20))
    ensures exists run :: Legal(src, First(5), run) && !InOrder(src, Run(src, First(5), run))
  {
    var run := TakenUpAmiss(src);
    var w := Run(src, First(5), run);
    FirstOk(src, 5);
    RunOk(src, First(5), run);
    assert LeftOver(src, w, 1);
    assert src.refuses(Id(src.stream, 1, 5, 10)) == src.refuses(Id(src.stream, GenOf(w.base), 5, 10));
    var rest := Overtaken(src, w, 1);
    RunThen(src, First(5), run, rest);
  }

  lemma TakenUpAmiss(src: Source) returns (run: seq<Action>)
    requires Regular(src) && src.starts(1, 0) == 10 && src.starts(1, 10) == 10
    requires !src.refuses(Id(src.stream, 1, 10, 20))
    ensures Legal(src, First(5), run)
    ensures var w := Run(src, First(5), run);
            w.base == [Begin(0, 5), Begin(1, 5)] && w.hold.Free?
            && 1 in w.queue.recs && IdAt(w, 1) == Id(src.stream, 1, 10, 20)
  {
    run := AdmittedAmiss(src);
    var w := Run(src, First(5), run);
    RunAppend(src, First(5), run, Restart);
    run := run + [Restart];
    var w1 := Apply(src, w, Restart);
    RunAppend(src, First(5), run, Note(1, 5, true));
    run := run + [Note(1, 5, true)];
    assert w1.base == [Begin(0, 5)];
  }

  lemma AdmittedAmiss(src: Source) returns (run: seq<Action>)
    requires Regular(src) && src.starts(1, 0) == 10 && src.starts(1, 10) == 10
    requires !src.refuses(Id(src.stream, 1, 10, 20))
    ensures Legal(src, First(5), run)
    ensures var w := Run(src, First(5), run);
            w.disk.ledger == [Begin(0, 5)] && w.base != []
            && 1 in w.queue.recs && IdAt(w, 1) == Id(src.stream, 1, 10, 20)
  {
    var w := First(5);
    var id := Id(src.stream, 1, 10, 20);
    assert Run(src, w, []) == w;
    RunAppend(src, w, [], Note(1, 0, false));
    run := [] + [Note(1, 0, false)];
    var w1 := Apply(src, w, Note(1, 0, false));
    assert !Holds(w1.queue, id) && w1.base == [Begin(0, 5), Begin(1, 0)];
    RunAppend(src, w, run, Admit(id, src.text(id)));
    run := run + [Admit(id, src.text(id))];
  }

  lemma {:induction false} RunThen(src: Source, w: World, a: seq<Action>, b: seq<Action>)
    requires Legal(src, w, a) && Legal(src, Run(src, w, a), b)
    ensures Legal(src, w, a + b) && Run(src, w, a + b) == Run(src, Run(src, w, a), b)
    decreases |b|
  {
    if b == [] {
      assert a + b == a;
    } else {
      RunAppend(src, w, a, b[0]);
      RunThen(src, w, a + [b[0]], b[1..]);
      assert a + [b[0]] + b[1..] == a + b;
    }
  }
}
