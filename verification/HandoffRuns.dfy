/**
What every run of the hand-off guarantees: any interleaving of the reader, other
streams and the worker, with failed saves, failed activations and restarts anywhere.
*/
module HandoffRuns {
  import opened Storage
  import opened LogQueue
  import opened Handoff
  import opened HandoffOrder

  /** A stream as first discovered, at an offset of generation zero, with an empty queue. */
  function First(offset: nat): World {
    World(Queue(1, map[]), [Begin(0, offset)], Checkpoint([Begin(0, offset)], None),
          Checkpoint([Begin(0, offset)], None), Free, Idle, [], [], {}, {}, {}, true, true)
  }

  ghost predicate Legal(src: Source, w: World, run: seq<Action>)
    decreases |run|
  {
    run == [] || (Enabled(src, w, run[0]) && Legal(src, Apply(src, w, run[0]), run[1..]))
  }

  ghost function Run(src: Source, w: World, run: seq<Action>): World
    requires Legal(src, w, run)
    decreases |run|
  {
    if run == [] then w else Run(src, Apply(src, w, run[0]), run[1..])
  }

  ghost predicate Ok(src: Source, w: World) {
    Inv(src, w) && OrderInv(src, w) && RecoverInv(src, w) && Worded(src, w)
  }

  lemma FirstOk(src: Source, offset: nat)
    requires Regular(src)
    ensures Ok(src, First(offset))
  {
  }

  lemma StepOk(src: Source, w: World, a: Action)
    requires Ok(src, w) && Enabled(src, w, a)
    ensures Ok(src, Apply(src, w, a))
  {
    StepInv(src, w, a);
    StepOrder(src, w, a);
    RecoverStep(src, w, a);
    StepWorded(src, w, a);
  }

  lemma {:induction false} RunOk(src: Source, w: World, run: seq<Action>)
    requires Ok(src, w) && Legal(src, w, run)
    ensures Ok(src, Run(src, w, run))
    decreases |run|
  {
    if run != [] {
      StepOk(src, w, run[0]);
      RunOk(src, Apply(src, w, run[0]), run[1..]);
    }
  }

  lemma {:induction false} RunAppend(src: Source, w: World, run: seq<Action>, a: Action)
    requires Legal(src, w, run) && Enabled(src, Run(src, w, run), a)
    ensures Legal(src, w, run + [a])
    ensures Run(src, w, run + [a]) == Apply(src, Run(src, w, run), a)
    decreases |run|
  {
    if run == [] {
      assert [a][1..] == [];
      assert run + [a] == [a];
    } else {
      RunAppend(src, Apply(src, w, run[0]), run[1..], a);
      assert (run + [a])[1..] == run[1..] + [a];
    }
  }

  // ---------- no loss ----------

  ghost predicate Covers(e: Event, g: nat, byte: nat) {
    !e.Begin? && e.gen == g && e.start <= byte < e.end
  }

  lemma {:induction false} GensRise(l: Ledger, i: nat, j: nat)
    requires Tiled(l) && i <= j < |l|
    ensures l[i].gen <= l[j].gen
    ensures i < j && l[j].Begin? ==> l[i].gen < l[j].gen
    decreases j
  {
    if i < j {
      GensRise(l, i, j - 1);
      assert Follows(l, j);
    }
  }

  /** The ranges from a generation's beginning to any later point of it leave out no byte. */
  lemma {:induction false} TiledCovers(l: Ledger, i: nat, j: nat, byte: nat)
    requires Tiled(l) && i <= j < |l| && l[i].Begin? && l[j].gen == l[i].gen
    requires l[i].offset <= byte < After(l[j])
    ensures exists e :: e in l && Covers(e, l[i].gen, byte)
    decreases j
  {
    GensRise(l, i, j);
    if l[j].start <= byte {
      assert l[j] in l && Covers(l[j], l[i].gen, byte);
    } else {
      GensRise(l, i, j - 1);
      assert Follows(l, j);
      TiledCovers(l, i, j - 1, byte);
    }
  }

  /** The record is queued, and says this. */
  ghost predicate Queued(w: World, id: Id, text: string) {
    exists n :: n in w.queue.recs && w.queue.recs[n].id == id && w.queue.recs[n].payload == text
  }

  /** The remote took the record, and heard this. */
  ghost predicate Heard(w: World, id: Id, text: string) {
    exists k :: 0 <= k < |w.remote| && k < |w.heard| && w.remote[k] == id && w.heard[k] == text
  }

  /** What became of a range of bytes after a run. */
  ghost predicate Fate(src: Source, w: World, run: seq<Action>, e: Event) {
    match e
    case Begin(_, _) => false
    case Kept(_, _, _) =>
      var id := IdOf(src, e);
      !src.refuses(id) && (Queued(w, id, src.text(id)) || (id in w.acked && Heard(w, id, src.text(id))) || id in w.rotten)
    case Refused(_, _, _) => src.refuses(IdOf(src, e))
    case Rejected(g, s, t) => src.starts(g, s) >= t
    case Passed(_, _, _) => exists k :: 0 <= k < |run| && run[k].Save? && run[k].advance.Overrun?
  }

  /**
  No loss.  In every run, take any generation the durable checkpoint has begun, at o,
  and any byte from there to any point the checkpoint reached in it.  The byte lies
  where the stream has no record, or in a record that the encoder refused, or in one
  that is queued, acknowledged after the remote took it, or kept aside, unless an
  overrun passed over lines the reader still held.
  */
  lemma NoLoss(src: Source, offset: nat, run: seq<Action>, g: nat, o: nat, top: Event, byte: nat)
    requires Regular(src) && Legal(src, First(offset), run)
    requires var l := Run(src, First(offset), run).disk.ledger;
             Begin(g, o) in l && top in l && top.gen == g && o <= byte < After(top)
    ensures var w := Run(src, First(offset), run);
            exists e :: e in w.disk.ledger && Covers(e, g, byte) && Fate(src, w, run, e)
  {
    FirstOk(src, offset);
    RunOk(src, First(offset), run);
    var w := Run(src, First(offset), run);
    var l := w.disk.ledger;
    var i :| 0 <= i < |l| && l[i] == Begin(g, o);
    var j :| 0 <= j < |l| && l[j] == top;
    if j < i { GensRise(l, j, i); }
    TiledCovers(l, i, j, byte);
    var e :| e in l && Covers(e, g, byte);
    if e.Kept? { KeptFate(src, w, run, e); }
    if e.Passed? { PassedByOverrun(src, First(offset), run); }
    assert Fate(src, w, run, e);
  }

  lemma KeptFate(src: Source, w: World, run: seq<Action>, e: Event)
    requires Ok(src, w) && e in w.disk.ledger && e.Kept?
    ensures Fate(src, w, run, e)
  {
    var id := IdOf(src, e);
    assert Accounted(w, id);
    if n :| n in w.queue.recs && w.queue.recs[n].id == id {
      assert Mine(src, w.queue, n);
      assert Queued(w, id, src.text(id));
    } else if id in w.acked {
      HeardRight(src, w, id);
    }
  }

  lemma HeardRight(src: Source, w: World, id: Id)
    requires Worded(src, w) && id in w.remote && id.stream == src.stream
    ensures Heard(w, id, src.text(id))
  {
    var k :| 0 <= k < |w.remote| && w.remote[k] == id;
    assert w.heard[k] == src.text(id);
  }

  /**
  Nothing is garbled.  In every run each queued record of the stream, each delivery of
  one, and whatever the worker is about to send says what the bytes of its range say.
  */
  lemma SaysItsBytes(src: Source, offset: nat, run: seq<Action>)
    requires Regular(src) && Legal(src, First(offset), run)
    ensures var w := Run(src, First(offset), run);
            && (forall n :: Mine(src, w.queue, n) ==> w.queue.recs[n].payload == src.text(w.queue.recs[n].id))
            && (w.worker.Holding? && w.worker.id.stream == src.stream ==> w.worker.payload == src.text(w.worker.id))
            && |w.heard| == |w.remote|
            && (forall k :: 0 <= k < |w.remote| && w.remote[k].stream == src.stream ==> w.heard[k] == src.text(w.remote[k]))
  {
    FirstOk(src, offset);
    RunOk(src, First(offset), run);
  }

  ghost predicate NonePassed(w: World) {
    forall e :: e in w.base || e in w.memory.ledger || e in w.disk.ledger ==> !e.Passed?
  }

  lemma PassedStep(src: Source, w: World, a: Action)
    requires NonePassed(w) && Enabled(src, w, a) && !(a.Save? && a.advance.Overrun?)
    ensures NonePassed(Apply(src, w, a))
  {
    if a.Save? {
      assert forall e :: e in Moves(src, w, a.advance) ==> !e.Passed?;
    }
  }

  /** Bytes are passed over only by an overrun. */
  lemma {:induction false} PassedByOverrun(src: Source, w: World, run: seq<Action>)
    requires Legal(src, w, run) && NonePassed(w)
    ensures NonePassed(Run(src, w, run)) || exists k :: 0 <= k < |run| && run[k].Save? && run[k].advance.Overrun?
    decreases |run|
  {
    if run != [] && !(run[0].Save? && run[0].advance.Overrun?) {
      PassedStep(src, w, run[0]);
      PassedByOverrun(src, Apply(src, w, run[0]), run[1..]);
      if k :| 0 <= k < |run[1..]| && run[1..][k].Save? && run[1..][k].advance.Overrun? {
        assert run[k + 1].Save? && run[k + 1].advance.Overrun?;
      }
    }
  }

  // ---------- never before the checkpoint ----------

  /** What can be delivered lies at or before the durable checkpoint. */
  lemma NeverBeforeCheckpoint(src: Source, offset: nat, run: seq<Action>, n: nat)
    requires Regular(src) && Legal(src, First(offset), run)
    requires var w := Run(src, First(offset), run); Mine(src, w.queue, n) && w.queue.recs[n].ready
    ensures var w := Run(src, First(offset), run);
            var id := w.queue.recs[n].id;
            && Mark(id) in w.disk.ledger
            && id.gen <= GenOf(w.disk.ledger)
            && (id.gen == GenOf(w.disk.ledger) ==> id.end <= OffsetOf(w.disk.ledger))
  {
    FirstOk(src, offset);
    RunOk(src, First(offset), run);
    TiledBehind(Run(src, First(offset), run).disk.ledger);
  }

  // ---------- never twice, but for a second offer ----------

  /**
  What was acknowledged, and not put back by a second offer, was ingested, is not
  queued, is not being sent, and comes back exactly if it is the group stuck.
  */
  lemma AckedOnce(src: Source, offset: nat, run: seq<Action>, id: Id, payload: string)
    requires Regular(src) && Legal(src, First(offset), run) && id.stream == src.stream
    requires id in Run(src, First(offset), run).acked && id !in Run(src, First(offset), run).twice
    ensures var w := Run(src, First(offset), run);
            && id in w.remote && !Holds(w.queue, id)
            && !Enabled(src, w, Admit(id, payload))
            && (forall a :: Enabled(src, w, Send(a)) ==> w.worker.id != id)
            && (w.hold == Stuck(id) <==> exists end: nat :: Enabled(src, w, Reoffer(end, src.text(id))) && Grown(w.hold.id, end) == id)
  {
    FirstOk(src, offset);
    RunOk(src, First(offset), run);
    var w := Run(src, First(offset), run);
    if Live(src, w, id) { LiveUnkept(src, w, id); }
    assert Mark(id) in w.base && IdOf(src, Mark(id)) == id;
    if w.hold == Stuck(id) {
      assert Enabled(src, w, Reoffer(id.end, src.text(id))) && Grown(w.hold.id, id.end) == id;
    }
    if end: nat :| Enabled(src, w, Reoffer(end, src.text(id))) && Grown(w.hold.id, end) == id {
      GrownUnkept(src, w, end);
    }
  }

  /** Only a second offer puts bytes in the queue that the reader had committed. */
  lemma OnlySecondOffer(src: Source, w: World, a: Action, n: nat)
    requires Inv(src, w) && Enabled(src, w, a)
    requires n !in w.queue.recs && Mine(src, Apply(src, w, a).queue, n)
    ensures a.Reoffer? <==> IdAt(Apply(src, w, a), n).start < OffsetOf(w.base)
  {
  }

  /** A record has left the queue: the remote took it, or it rotted. */
  ghost predicate Gone(w: World, id: Id) {
    !Holds(w.queue, id) && (id in w.acked || id in w.rotten)
  }

  /**
  A second offer adds a record exactly when the record has left the queue, or the group
  has grown and is not queued yet.  In the second case the record covers committed
  bytes again under an identity the ledger does not keep.
  */
  lemma SecondOfferAdds(src: Source, w: World, end: nat, payload: string)
    requires Inv(src, w) && Enabled(src, w, Reoffer(end, payload))
    ensures var id := Grown(w.hold.id, end);
            && (Apply(src, w, Reoffer(end, payload)).queue != w.queue
                <==> Gone(w, id) || (end > w.hold.id.end && !Holds(w.queue, id)))
            && (end > w.hold.id.end <==> Mark(id) !in w.base)
  {
    var id := Grown(w.hold.id, end);
    GrownUnkept(src, w, end);
    if end == w.hold.id.end {
      assert IdOf(src, Mark(id)) == id && Accounted(w, id);
    }
  }

  /** A group, delivered and acknowledged, that is delivered again. */
  lemma SecondDelivery(src: Source)
    requires Regular(src) && src.starts(0, 0) == 0 && !src.refuses(Id(src.stream, 0, 0, 1))
    ensures exists run :: Legal(src, First(0), run)
              && Run(src, First(0), run).remote == [Id(src.stream, 0, 0, 1), Id(src.stream, 0, 0, 1)]
              && Id(src.stream, 0, 0, 1) in Run(src, First(0), run).acked
  {
    var h := Id(src.stream, 0, 0, 1);
    var run := BackAgain(src);
    var w := Run(src, First(0), run);
    RunAppend(src, First(0), run, Peek(2));
    RunAppend(src, First(0), run + [Peek(2)], Send(true));
    assert Run(src, First(0), run + [Peek(2)] + [Send(true)]).remote == [h] + [h];
  }

  /** The second offer of the acknowledged group, and its activation. */
  lemma BackAgain(src: Source) returns (run: seq<Action>)
    requires Regular(src) && src.starts(0, 0) == 0 && !src.refuses(Id(src.stream, 0, 0, 1))
    ensures Legal(src, First(0), run)
    ensures var w := Run(src, First(0), run);
            var h := Id(src.stream, 0, 0, 1);
            && w.queue == Queue(3, map[2 := LogRecord(h, true, src.text(h))])
            && w.worker == Idle && w.remote == [h] && w.acked == {h} && w.base != []
  {
    var h := Id(src.stream, 0, 0, 1);
    run := Delivered(src);
    var w := Run(src, First(0), run);
    assert Gone(w, h) && Grown(h, 1) == h;
    RunAppend(src, First(0), run, Reoffer(1, src.text(h)));
    run := run + [Reoffer(1, src.text(h))];
    var q := LogQueue.Admit(w.queue, h, src.text(h));
    assert q == Queue(3, map[2 := LogRecord(h, false, src.text(h))]);
    RunAppend(src, First(0), run, Action.Activate(h));
    run := run + [Action.Activate(h)];
    assert LogQueue.Activate(q, h) == Queue(3, map[2 := LogRecord(h, true, src.text(h))]);
  }

  /** The group is committed, its activation fails and is retried, and the worker delivers it. */
  lemma Delivered(src: Source) returns (run: seq<Action>)
    requires Regular(src) && src.starts(0, 0) == 0 && !src.refuses(Id(src.stream, 0, 0, 1))
    ensures Legal(src, First(0), run)
    ensures var w := Run(src, First(0), run);
            var h := Id(src.stream, 0, 0, 1);
            w.queue == Queue(2, map[]) && w.base == [Begin(0, 0), Mark(h)] && w.memory.id == Some(h)
            && w.hold == Stuck(h) && w.worker == Idle && w.remote == [h] && w.acked == {h}
  {
    run := Retried(src);
    var w := Run(src, First(0), run);
    RunAppend(src, First(0), run, Peek(1));
    run := run + [Peek(1)];
    var w1 := Apply(src, w, Peek(1));
    RunAppend(src, First(0), run, Send(true));
    run := run + [Send(true)];
    var w2 := Apply(src, w1, Send(true));
    RunAppend(src, First(0), run, Ack);
    run := run + [Ack];
    assert w2.queue.recs - {1} == map[];
  }

  lemma Retried(src: Source) returns (run: seq<Action>)
    requires Regular(src) && src.starts(0, 0) == 0 && !src.refuses(Id(src.stream, 0, 0, 1))
    ensures Legal(src, First(0), run)
    ensures var w := Run(src, First(0), run);
            var h := Id(src.stream, 0, 0, 1);
            w.queue == Queue(2, map[1 := LogRecord(h, true, src.text(h))]) && w.base == [Begin(0, 0), Mark(h)]
            && w.memory.id == Some(h) && w.hold == Stuck(h) && w.worker == Idle && w.remote == [] && w.acked == {}
  {
    var h := Id(src.stream, 0, 0, 1);
    run := Committed(src);
    var w := Run(src, First(0), run);
    RunAppend(src, First(0), run, Stick);
    run := run + [Stick];
    RunAppend(src, First(0), run, Action.Activate(h));
    run := run + [Action.Activate(h)];
    assert LogQueue.Activate(w.queue, h) == Queue(2, map[1 := LogRecord(h, true, src.text(h))]);
  }

  lemma Committed(src: Source) returns (run: seq<Action>)
    requires Regular(src) && src.starts(0, 0) == 0 && !src.refuses(Id(src.stream, 0, 0, 1))
    ensures Legal(src, First(0), run)
    ensures var w := Run(src, First(0), run);
            var h := Id(src.stream, 0, 0, 1);
            && w.queue == Queue(2, map[1 := LogRecord(h, false, src.text(h))]) && w.base == [Begin(0, 0), Mark(h)]
            && w.memory == w.disk == Checkpoint(w.base, Some(h))
            && w.hold == Done(h) && w.worker == Idle && w.remote == [] && w.acked == {}
  {
    var h := Id(src.stream, 0, 0, 1);
    var admit, save := Admit(h, src.text(h)), Save(Take(h), true, true);
    var w := First(0);
    assert Run(src, w, []) == w && !Holds(w.queue, h);
    RunAppend(src, w, [], admit);
    var w1 := Apply(src, w, admit);
    assert w1.queue == Queue(2, map[1 := LogRecord(h, false, src.text(h))]);
    assert Holds(w1.queue, h) by { assert w1.queue.recs[1].id == h; }
    RunAppend(src, w, [] + [admit], save);
    assert Moves(src, w1, Take(h)) == [Mark(h)];
    assert w1.base + [Mark(h)] == [Begin(0, 0), Mark(h)];
    run := [] + [admit] + [save];
  }

  // ---------- the head can move ----------

  /** A run in which the remote takes the head, an older record becomes ready, and the acknowledgement is refused. */
  lemma AckRefusedRun(src: Source)
    requires Regular(src) && src.starts(0, 0) == 0 && !src.refuses(Id(src.stream, 0, 0, 1))
    ensures exists run :: Legal(src, First(0), run)
              && Run(src, First(0), run).worker.Holding? && Run(src, First(0), run).worker.accepted
              && Run(src, First(0), run).worker.n in Run(src, First(0), run).queue.recs
              && !Enabled(src, Run(src, First(0), run), Ack)
  {
    var h := Id(src.stream, 0, 0, 1);
    var run := SentAhead(src);
    var w := Run(src, First(0), run);
    RunAppend(src, First(0), run, Action.Activate(h));
    var x := Apply(src, w, Action.Activate(h));
    assert x.queue.recs[1].ready && x.worker.n == 2;
  }

  /** A record of another stream, admitted later, is ready first, and is sent. */
  lemma SentAhead(src: Source) returns (run: seq<Action>)
    requires Regular(src) && src.starts(0, 0) == 0 && !src.refuses(Id(src.stream, 0, 0, 1))
    ensures Legal(src, First(0), run)
    ensures var w := Run(src, First(0), run);
            && w.base != [] && w.memory.id == Some(Id(src.stream, 0, 0, 1)) && SecondReady(src, w.queue)
            && w.worker.Holding? && w.worker.n == 2 && w.worker.accepted
  {
    run := ReadyAhead(src);
    var w := Run(src, First(0), run);
    assert IsHead(w.queue, 2);
    RunAppend(src, First(0), run, Peek(2));
    run := run + [Peek(2)];
    RunAppend(src, First(0), run, Send(true));
    run := run + [Send(true)];
  }

  /** The stream's first record is queued, and another stream's second one is ready. */
  ghost predicate SecondReady(src: Source, q: Queue) {
    q.recs.Keys == {1, 2} && q.recs[1].id == Id(src.stream, 0, 0, 1) && !q.recs[1].ready && q.recs[2].ready
  }

  lemma ReadyAhead(src: Source) returns (run: seq<Action>)
    requires Regular(src) && src.starts(0, 0) == 0 && !src.refuses(Id(src.stream, 0, 0, 1))
    ensures Legal(src, First(0), run)
    ensures var w := Run(src, First(0), run);
            && w.base != [] && w.memory.id == Some(Id(src.stream, 0, 0, 1)) && SecondReady(src, w.queue) && w.worker.Idle?
  {
    var other := Id(if src.stream.Journal? then FileStream("", "") else Journal, 0, 0, 1);
    run := Committed(src);
    var w := Run(src, First(0), run);
    RunAppend(src, First(0), run, Admit(other, ""));
    run := run + [Admit(other, "")];
    var q := LogQueue.Admit(w.queue, other, "");
    assert q.recs == w.queue.recs[2 := LogRecord(other, false, "")];
    RunAppend(src, First(0), run, Action.Activate(other));
    run := run + [Action.Activate(other)];
    assert SecondReady(src, LogQueue.Activate(q, other));
  }

  // ---------- in order ----------

  /** Each generation is ingested in the order of its bytes, up to repeats and second offers. */
  lemma DeliveredInOrder(src: Source, offset: nat, run: seq<Action>)
    requires Regular(src) && Legal(src, First(offset), run) && Run(src, First(offset), run).aligned
    ensures InOrder(src, Run(src, First(offset), run))
  {
    FirstOk(src, offset);
    RunOk(src, First(offset), run);
  }

  // ---------- recoverability, and exactly when it ends ----------

  /** After a restart, activating the remembered admission leaves no kept record unready. */
  lemma RestartRecovers(src: Source, offset: nat, run: seq<Action>, n: nat)
    requires Regular(src) && Legal(src, First(offset), run) && Run(src, First(offset), run).quiet
    requires var w := Run(src, First(offset), run); Counted(src, w, w.disk.ledger, n)
    ensures Enabled(src, Run(src, First(offset), run), Restart)
    ensures var w := Apply(src, Run(src, First(offset), run), Restart);
            || w.queue.recs[n].ready
            || (w.memory.id.Some? && Enabled(src, w, Action.Activate(w.memory.id.value))
                && Apply(src, w, Action.Activate(w.memory.id.value)).queue.recs[n].ready)
  {
    FirstOk(src, offset);
    RunOk(src, First(offset), run);
  }

  /** A checkpoint keeps every admission recoverable exactly when the one it replaces is no longer unready. */
  lemma SaveRecoverableIff(src: Source, w: World, v: Advance, saved: bool)
    requires Inv(src, w) && Enabled(src, w, Save(v, true, saved)) && Activatable(src, w, w.base, w.memory.id)
    requires w.memory.id.Some? ==> Named(w, v) != w.memory.id
    ensures var x := Apply(src, w, Save(v, true, saved));
            Activatable(src, x, x.disk.ledger, x.disk.id) <==> !Unsettled(w)
  {
    var x := Apply(src, w, Save(v, true, saved));
    var l := w.base + Moves(src, w, v);
    assert forall n :: Counted(src, x, l, n) <==> Counted(src, w, l, n);
    if Unsettled(w) {
      var n :| n in w.queue.recs && w.queue.recs[n].id == w.memory.id.value && !w.queue.recs[n].ready;
      assert Mine(src, w.queue, n) && !src.refuses(w.memory.id.value);
      assert Mark(w.memory.id.value) in w.base;
      assert Counted(src, x, x.disk.ledger, n);
    } else {
      RecoverSaved(src, w, v);
    }
  }

  /** The ledger keeps the record, no checkpoint remembers it, and it is not the group at hand. */
  ghost predicate Forgotten(x: World, id: Id) {
    && Mark(id) in x.base && x.memory.id != Some(id) && x.disk.id != Some(id) && (x.hold.Free? || x.hold.id != id)
  }

  /** A kept record that neither checkpoint remembers, and that is not the group at hand. */
  ghost predicate Stranded(src: Source, w: World, n: nat) {
    Mine(src, w.queue, n) && !w.queue.recs[n].ready && Forgotten(w, IdAt(w, n))
  }

  lemma StrandedStep(src: Source, w: World, n: nat, a: Action)
    requires Inv(src, w) && Stranded(src, w, n) && Enabled(src, w, a) && a != Rot(n)
    ensures var x := Apply(src, w, a); Stranded(src, x, n) && IdAt(x, n) == IdAt(w, n)
  {
    if a.Save? {
      StrandedSave(src, w, n, a.advance, a.durable, a.saved);
    } else {
      StrandedQueue(src, w, n, a);
      StrandedChecks(src, w, n, a);
    }
  }

  lemma StrandedQueue(src: Source, w: World, n: nat, a: Action)
    requires Inv(src, w) && Stranded(src, w, n) && Enabled(src, w, a) && a != Rot(n) && !a.Save?
    ensures var q := Apply(src, w, a).queue; n in q.recs && q.recs[n] == w.queue.recs[n]
  {
    if a.Activate? { StrandedActivate(src, w, n, a.id); }
  }

  lemma StrandedActivate(src: Source, w: World, n: nat, id: Id)
    requires Inv(src, w) && Stranded(src, w, n) && Enabled(src, w, Action.Activate(id))
    ensures var q := LogQueue.Activate(w.queue, id); n in q.recs && q.recs[n] == w.queue.recs[n]
  {
  }

  lemma StrandedChecks(src: Source, w: World, n: nat, a: Action)
    requires Inv(src, w) && Stranded(src, w, n) && Enabled(src, w, a) && !a.Save?
    ensures Forgotten(Apply(src, w, a), IdAt(w, n))
  {
    if a.Note? || a.Resave? || a.Reopen? || a.Restart? {
      StrandedReturn(src, w, n, a);
    }
  }

  lemma StrandedReturn(src: Source, w: World, n: nat, a: Action)
    requires Inv(src, w) && Stranded(src, w, n) && Enabled(src, w, a) && (a.Note? || a.Resave? || a.Reopen? || a.Restart?)
    ensures Forgotten(Apply(src, w, a), IdAt(w, n))
  {
  }

  lemma StrandedSave(src: Source, w: World, n: nat, v: Advance, durable: bool, saved: bool)
    requires Inv(src, w) && Stranded(src, w, n) && Enabled(src, w, Save(v, durable, saved))
    ensures Stranded(src, Apply(src, w, Save(v, durable, saved)), n)
  {
    if v.Take? { LiveUnkept(src, w, v.id); }
    if v.Again? { GrownUnkept(src, w, v.end); }
    assert Named(w, v) != Some(IdAt(w, n));
  }

  /** Once stranded, a record is never delivered: no run makes it ready again. */
  lemma {:induction false} StrandedForever(src: Source, w: World, n: nat, run: seq<Action>)
    requires Inv(src, w) && Stranded(src, w, n) && Legal(src, w, run) && Rot(n) !in run
    ensures Stranded(src, Run(src, w, run), n)
    decreases |run|
  {
    if run != [] {
      StrandedStep(src, w, n, run[0]);
      StepInv(src, w, run[0]);
      StrandedForever(src, Apply(src, w, run[0]), n, run[1..]);
    }
  }

  /** A run that strands a record: its activation never happens, and the next record is committed. */
  lemma StrandingRun(src: Source)
    requires Regular(src) && src.starts(0, 0) == 0 && !src.refuses(Id(src.stream, 0, 0, 1))
    requires src.starts(0, 1) == 1 && !src.refuses(Id(src.stream, 0, 1, 2))
    ensures exists run :: Legal(src, First(0), run) && Stranded(src, Run(src, First(0), run), 1)
  {
    var next := Id(src.stream, 0, 1, 2);
    var run := NextAdmitted(src);
    var w := Run(src, First(0), run);
    assert Holds(w.queue, next) && Moves(src, w, Take(next)) == [Mark(next)];
    RunAppend(src, First(0), run, Save(Take(next), true, true));
    assert Stranded(src, Apply(src, w, Save(Take(next), true, true)), 1);
  }

  lemma NextAdmitted(src: Source) returns (run: seq<Action>)
    requires Regular(src) && src.starts(0, 0) == 0 && !src.refuses(Id(src.stream, 0, 0, 1))
    requires src.starts(0, 1) == 1 && !src.refuses(Id(src.stream, 0, 1, 2))
    ensures Legal(src, First(0), run)
    ensures var w := Run(src, First(0), run);
            var h := Id(src.stream, 0, 0, 1);
            && w.base == [Begin(0, 0), Mark(h)] && w.hold.Free?
            && w.queue.recs.Keys == {1, 2} && w.queue.recs[1].id == h && !w.queue.recs[1].ready
            && w.queue.recs[2].id == Id(src.stream, 0, 1, 2)
  {
    var next := Id(src.stream, 0, 1, 2);
    run := Committed(src);
    var w := Run(src, First(0), run);
    RunAppend(src, First(0), run, Admit(next, src.text(next)));
    assert LogQueue.Admit(w.queue, next, src.text(next)).recs == w.queue.recs[2 := LogRecord(next, false, src.text(next))];
    run := run + [Admit(next, src.text(next))];
  }
}
