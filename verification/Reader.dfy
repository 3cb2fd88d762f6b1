/**
What a reader of one stream can do to the world, one call at a time.  Every call may
fail, and before each of them other streams and the worker may do anything.
*/
module Reader {
  import opened Keys
  import opened Storage
  import opened LogQueue
  import opened Handoff
  import opened HandoffOrder
  import opened HandoffRuns

  ghost predicate Reached(key: nat, src: Source, first: World, run: seq<Action>, w: World) {
    Regular(src) && Ok(src, first) && Legal(src, first, run) && Run(src, first, run) == w
  }

  /** w is where a legal run from a good beginning leads. */
  ghost predicate Reachable(src: Source, first: World, run: seq<Action>, w: World) {
    forall k: nat {:trigger Look(RunKey, k)} :: Look(RunKey, k) ==> Reached(k, src, first, run, w)
  }

  lemma ReachableOk(src: Source, first: World, run: seq<Action>, w: World)
    requires Reachable(src, first, run, w)
    ensures Ok(src, w)
  {
    assert Look(RunKey, 0);
    RunOk(src, first, run);
  }

  lemma ReachableStep(src: Source, first: World, run: seq<Action>, w: World, a: Action)
    requires Reachable(src, first, run, w) && Enabled(src, w, a)
    ensures Reachable(src, first, run + [a], Apply(src, w, a))
  {
    assert Look(RunKey, 0);
    RunAppend(src, first, run, a);
  }

  /** Actions of other streams, of the worker, and of the disk. */
  predicate Foreign(src: Source, a: Action) {
    match a
    case Admit(id, _) => id.stream != src.stream
    case Activate(id) => id.stream != src.stream
    case Save(_, _, _) => false
    case Stick => false
    case Reoffer(_, _) => false
    case Note(_, _, _) => false
    case Reopen => false
    case Restart => false
    case _ => true
  }

  ghost predicate Settled(w: World) { !Unsettled(w) }

  /** What others leave to the reader: its progress, its memory, the group at hand, and its admissions. */
  ghost predicate Undisturbed(src: Source, v: World, w: World) {
    && w.base == v.base && w.memory == v.memory && w.twice == v.twice
    && w.hold == v.hold && w.quiet == v.quiet && w.aligned == v.aligned
    && (Settled(v) ==> Settled(w))
    && (forall id: Id :: id.stream == src.stream && Accounted(v, id) ==> Accounted(w, id))
  }

  lemma ForeignStep(src: Source, w: World, a: Action)
    requires Inv(src, w) && Foreign(src, a) && Enabled(src, w, a)
    ensures Undisturbed(src, w, Apply(src, w, a))
  {
    if Settled(w) { ForeignSettled(src, w, a); }
    forall id: Id | id.stream == src.stream && Accounted(w, id)
      ensures Accounted(Apply(src, w, a), id)
    {
      ForeignAccounted(src, w, a, id);
    }
  }

  lemma ForeignSettled(src: Source, w: World, a: Action)
    requires Inv(src, w) && Foreign(src, a) && Enabled(src, w, a) && Settled(w)
    ensures Settled(Apply(src, w, a))
  {
    var x := Apply(src, w, a);
    if w.memory.id.Some? {
      forall n | n in x.queue.recs && x.queue.recs[n].id == w.memory.id.value && w.memory.id.value !in w.twice
        ensures x.queue.recs[n].ready
      {
        assert n in w.queue.recs && w.queue.recs[n].id == w.memory.id.value;
      }
    }
  }

  lemma ForeignAccounted(src: Source, w: World, a: Action, id: Id)
    requires Inv(src, w) && Foreign(src, a) && Enabled(src, w, a) && id.stream == src.stream && Accounted(w, id)
    ensures Accounted(Apply(src, w, a), id)
  {
    var x := Apply(src, w, a);
    if n :| n in w.queue.recs && w.queue.recs[n].id == id {
      assert Mine(src, w.queue, n);
      assert n in x.queue.recs ==> x.queue.recs[n].id == id;
    }
  }

  /** The record is the group stuck, offered again. */
  ghost predicate Offering(src: Source, w: World, id: Id) {
    w.hold.Stuck? && Joins(src, w.hold.id, id.end) && id == Grown(w.hold.id, id.end)
  }

  /** What an attempt to admit leaves to the reader: its progress, its memory, and the group stuck, if any. */
  ghost predicate Tried(v: World, w: World) {
    && w.base == v.base && w.memory == v.memory && w.quiet == v.quiet && w.aligned == v.aligned
    && (w.hold == v.hold || (!v.hold.Stuck? && w.hold.Free?))
    && (Settled(v) ==> Settled(w))
  }

  /** The reader's side of the world; faults counts the calls that failed. */
  class Link {
    ghost const src: Source
    ghost const first: World
    ghost var w: World
    ghost var run: seq<Action>
    ghost var faults: nat

    ghost constructor (src: Source, first: World, run: seq<Action>)
      requires Regular(src) && Ok(src, first) && Legal(src, first, run)
      ensures this.src == src && this.first == first && w == Run(src, first, run) && Linked()
    {
      this.src, this.first, this.run, faults := src, first, run, 0;
      w := Run(src, first, run);
    }

    ghost predicate Linked()
      reads `w, `run
    {
      Reachable(src, first, run, w)
    }

    lemma WorldOk()
      requires Linked()
      ensures Ok(src, w)
    {
      ReachableOk(src, first, run, w);
    }

    /** The group stuck is the stream's own. */
    lemma HoldMine()
      requires Linked() && w.hold.Stuck?
      ensures w.hold.id.stream == src.stream
    {
      WorldOk();
    }

    ghost method Step(a: Action)
      requires Linked() && Enabled(src, w, a)
      modifies this
      ensures Linked() && w == Apply(src, old(w), a) && faults == old(faults)
    {
      ReachableStep(src, first, run, w, a);
      w := Apply(src, w, a);
      run := run + [a];
    }

    /** Others run for a while. */
    ghost method Others()
      requires Linked()
      modifies this
      ensures Linked() && Undisturbed(src, old(w), w) && faults == old(faults)
    {
      var plan: seq<Action> := *;
      var k := 0;
      while k < |plan|
        invariant Linked() && Undisturbed(src, old(w), w) && faults == old(faults)
      {
        if Foreign(src, plan[k]) && Enabled(src, w, plan[k]) {
          WorldOk();
          ForeignStep(src, w, plan[k]);
          Step(plan[k]);
        }
        k := k + 1;
      }
    }

    /** Whether a call goes through. */
    method Answers() returns (ok: bool)
      modifies `faults
      ensures faults == old(faults) + if ok then 0 else 1
    {
      ok := *;
      if !ok { faults := faults + 1; }
    }

    /** The record enters the queue, unless it is there. */
    ghost method Enqueue(id: Id, payload: string)
      requires Linked() && w.base != [] && (Live(src, w, id) || Offering(src, w, id)) && !src.refuses(id)
      requires payload == src.text(id)
      modifies this
      ensures Linked() && Tried(old(w), w) && Accounted(w, id) && faults == old(faults)
    {
      WorldOk();
      if w.hold.Stuck? {
        ReofferTried(src, w, id.end, payload);
        Step(Reoffer(id.end, payload));
      } else {
        AdmitTried(src, w, id, payload);
        Step(Admit(id, payload));
      }
    }

    /**
    Encode the record, which says what its bytes say, and offer it to the queue, for the
    first time or again; a refused record counts as admitted.
    */
    method AdmitRecord(id: Id, payload: string) returns (ok: bool)
      requires Linked() && w.base != [] && (Live(src, w, id) || Offering(src, w, id))
      requires payload == src.text(id)
      modifies this
      ensures Linked() && Tried(old(w), w) && faults == old(faults) + (if ok then 0 else 1)
      ensures ok ==> Offered(src, w, id)
    {
      Others();
      ok := Answers();
      ghost var happened: bool := *;
      if !src.refuses(id) && (ok || happened) {
        Enqueue(id, payload);
      }
    }

    /** Write, fsync and rename the checkpoint; a failed save may have happened. */
    method SaveCheckpoint(ghost v: Advance) returns (ok: bool)
      requires Linked() && w.base != [] && CanAdvance(src, w, v)
      modifies this
      ensures Linked()
      ensures w.base == if ok && !v.Overrun? then old(w).base + Moves(src, old(w), v) else old(w).base
      ensures w.memory == if ok then Checkpoint(old(w).base + Moves(src, old(w), v), Named(old(w), v)) else old(w).memory
      ensures w.hold == if ok then HoldAfter(old(w), v) else old(w).hold
      ensures w.aligned == old(w).aligned && faults == old(faults) + (if ok then 0 else 1)
      ensures Settled(old(w)) ==> w.quiet == old(w).quiet && (!ok || Named(old(w), v).None? ==> Settled(w))
    {
      if w.hold.Stuck? { HoldMine(); }
      Others();
      ok := Answers();
      ghost var durable: bool := *;
      Step(Save(v, ok || durable, ok));
    }

    /** Activate the remembered admission. */
    method ActivateRecord(id: Id) returns (ok: bool)
      requires Linked() && w.base != [] && w.memory.id == Some(id)
      modifies this
      ensures Linked() && w.base == old(w).base && w.memory == old(w).memory && w.hold == old(w).hold
      ensures w.quiet == old(w).quiet && w.aligned == old(w).aligned
      ensures ok || Settled(old(w)) ==> Settled(w)
      ensures faults == old(faults) + (if ok then 0 else 1)
    {
      Others();
      ok := Answers();
      ghost var happened: bool := *;
      if ok || happened {
        Step(Action.Activate(id));
      }
    }

    /** The reader keeps the group whose activation failed. */
    ghost method KeepGroup()
      requires Linked() && w.base != [] && w.hold.Done?
      modifies this
      ensures Linked() && w == old(w).(hold := Stuck(old(w).hold.id)) && faults == old(faults)
    {
      Step(Stick);
    }

    /** The reader meets a truncated file. */
    method Truncated()
      requires Linked() && w.base != []
      modifies this
      ensures Linked() && w.hold.Free? && faults == old(faults)
      ensures w.base == old(w).base + [Begin(GenOf(old(w).base) + 1, 0)] && w.memory == old(w).memory
      ensures Settled(old(w)) ==> w.quiet == old(w).quiet && Settled(w)
    {
      Others();
      Step(Note(GenOf(w.base) + 1, 0, false));
    }
  }

  lemma EnqueueSettles(src: Source, w: World, id: Id, payload: string, x: World)
    requires Inv(src, w) && !Holds(w.queue, id) && id.stream == src.stream
    requires x.queue == LogQueue.Admit(w.queue, id, payload) && x.memory == w.memory
    requires w.twice <= x.twice && (Mark(id) in w.base ==> id in x.twice) && !src.refuses(id)
    ensures Holds(x.queue, id) && (Settled(w) ==> Settled(x))
  {
    assert x.queue.recs[w.queue.next].id == id;
    if w.memory.id.Some? && Settled(w) && w.memory.id.value !in x.twice {
      assert IdOf(src, Mark(w.memory.id.value)) == w.memory.id.value;
      forall n | n in x.queue.recs && x.queue.recs[n].id == w.memory.id.value
        ensures x.queue.recs[n].ready
      {
        assert n in w.queue.recs && w.queue.recs[n].id == w.memory.id.value;
      }
    }
  }

  lemma AdmitTried(src: Source, w: World, id: Id, payload: string)
    requires Inv(src, w) && Enabled(src, w, Admit(id, payload)) && id.stream == src.stream
    ensures var x := Apply(src, w, Admit(id, payload)); Tried(w, x) && Holds(x.queue, id)
  {
    LiveUnkept(src, w, id);
    if !Holds(w.queue, id) { EnqueueSettles(src, w, id, payload, Apply(src, w, Admit(id, payload))); }
  }

  lemma ReofferTried(src: Source, w: World, end: nat, payload: string)
    requires Inv(src, w) && Enabled(src, w, Reoffer(end, payload))
    ensures var x := Apply(src, w, Reoffer(end, payload)); Tried(w, x) && Holds(x.queue, Grown(w.hold.id, end))
  {
    var id := Grown(w.hold.id, end);
    GrownUnkept(src, w, end);
    if !Holds(w.queue, id) { EnqueueSettles(src, w, id, payload, Apply(src, w, Reoffer(end, payload))); }
  }
}
