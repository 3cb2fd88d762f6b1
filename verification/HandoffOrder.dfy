/**
Order of delivery and recoverability of admissions, over any run.
*/
module HandoffOrder {
  import opened Storage
  import opened LogQueue
  import opened Handoff

  // ---------- order ----------

  function IdAt(w: World, n: nat): Id
    requires n in w.queue.recs
  {
    w.queue.recs[n].id
  }

  ghost predicate KeptIn(src: Source, w: World, l: Ledger, n: nat) {
    Mine(src, w.queue, n) && Mark(IdAt(w, n)) in l
  }

  /** Kept, and not put back by a second offer. */
  ghost predicate Counted(src: Source, w: World, l: Ledger, n: nat) {
    KeptIn(src, w, l, n) && IdAt(w, n) !in w.twice
  }

  /** Kept records of a generation are numbered in the order of their starts. */
  ghost predicate Numbered(src: Source, w: World) {
    forall m, n | Counted(src, w, w.disk.ledger, m) && Counted(src, w, w.disk.ledger, n) ::
      IdAt(w, m).gen == IdAt(w, n).gen && m < n ==> IdAt(w, m).start <= IdAt(w, n).start
  }

  /** Numbered after everything of its generation that the ledger kept. */
  ghost predicate Late(src: Source, w: World, l: Ledger, n: nat)
    requires n in w.queue.recs
  {
    forall m: nat :: Counted(src, w, l, m) && IdAt(w, m).gen == IdAt(w, n).gen ==> m < n
  }

  /** An admission of the ledger's generation that the ledger has not kept. */
  ghost predicate Loose(src: Source, w: World, l: Ledger, n: nat)
    requires l != []
  {
    Mine(src, w.queue, n) && Mark(IdAt(w, n)) !in l && IdAt(w, n).gen == GenOf(l)
  }

  /** It is behind the ledger for good, or numbered last with nothing admissible before it. */
  ghost predicate Waits(src: Source, w: World, l: Ledger, low: nat, n: nat)
    requires l != [] && n in w.queue.recs
  {
    || IdAt(w, n).start < StartOf(src, l)
    || (Late(src, w, l, n)
        && (IdAt(w, n).start == StartOf(src, l) || OnlyRefused(src, GenOf(l), low, IdAt(w, n).start)))
  }

  ghost predicate Stale(src: Source, w: World, l: Ledger, low: nat)
    requires l != []
  {
    forall n :: Loose(src, w, l, n) ==> Waits(src, w, l, low, n)
  }

  /** The reader may still admit from the start of the group it committed last. */
  function Low(src: Source, w: World): nat
    requires w.base != []
  {
    if w.hold.Free? then StartOf(src, w.base) else w.hold.id.start
  }

  /** One starts before the group, the other with it. */
  predicate Astride(low: Id, h: Id, top: Id) {
    low.gen == h.gen == top.gen && low.start < h.start == top.start
  }

  /** Admissions that start with the group last committed are numbered after what was kept before it. */
  ghost predicate TopNumbered(src: Source, w: World) {
    !w.hold.Free? ==>
      forall m, n | Counted(src, w, w.base, m) && Mine(src, w.queue, n) && IdAt(w, n) !in w.twice ::
        Astride(IdAt(w, m), w.hold.id, IdAt(w, n)) ==> m < n
  }

  /** A remembered admission is the last its generation kept. */
  ghost predicate Last(l: Ledger, id: Option<Id>) {
    id.Some? && Mark(id.value) in l ==>
      forall e :: e in l && e.Kept? && e.gen == id.value.gen ==> e.start <= id.value.start
  }

  /** Ready, or can become ready; put back by a second offer are left aside. */
  ghost predicate Sendable(w: World, n: nat) {
    && n in w.queue.recs && IdAt(w, n) !in w.twice
    && (w.queue.recs[n].ready || w.memory.id == Some(IdAt(w, n)) || w.disk.id == Some(IdAt(w, n)))
  }

  ghost predicate Sent(w: World, id: Id) {
    id !in w.twice && (id in w.remote || (w.worker.Holding? && w.worker.id == id))
  }

  /** Whatever was handed out lies at or before whatever can still be delivered. */
  ghost predicate Ahead(src: Source, w: World) {
    && (forall id, n | Sent(w, id) && id.stream == src.stream && Mine(src, w.queue, n) && Sendable(w, n) ::
          IdAt(w, n).gen == id.gen ==> id.start <= IdAt(w, n).start)
    && (w.worker.Holding? && w.worker.id !in w.twice ==>
          forall id | id in w.remote && id !in w.twice && id.stream == w.worker.id.stream == src.stream ::
            id.gen == w.worker.id.gen ==> id.start <= w.worker.id.start)
  }

  /** Each generation of the stream reached the remote in order, but for repeats and second offers. */
  ghost predicate InOrder(src: Source, w: World) {
    forall i, j | 0 <= i < j < |w.remote| && w.remote[i].stream == w.remote[j].stream == src.stream
                  && w.remote[i] !in w.twice && w.remote[j] !in w.twice ::
      w.remote[i].gen == w.remote[j].gen ==> w.remote[i].start <= w.remote[j].start
  }

  /** Records and checkpoints stand in order. */
  ghost predicate Arranged(src: Source, w: World)
    requires w.base != [] && w.memory.ledger != [] && w.disk.ledger != []
  {
    && Last(w.base, w.memory.id) && Last(w.disk.ledger, w.disk.id)
    && (w.aligned ==>
          && Near(src, w, w.memory.ledger) && Near(src, w, w.disk.ledger)
          && Numbered(src, w) && TopNumbered(src, w)
          && Stale(src, w, w.base, Low(src, w))
          && Stale(src, w, w.memory.ledger, StartOf(src, w.memory.ledger))
          && Stale(src, w, w.disk.ledger, StartOf(src, w.disk.ledger)))
  }

  ghost predicate OrderInv(src: Source, w: World) {
    && w.base != [] && w.memory.ledger != [] && w.disk.ledger != []
    && Arranged(src, w)
    && (w.aligned ==> Ahead(src, w) && InOrder(src, w))
  }

  // ---------- recoverability ----------

  /** Every record the ledger kept is ready, or is the one a checkpoint remembers. */
  ghost predicate Activatable(src: Source, w: World, l: Ledger, id: Option<Id>) {
    forall n :: Counted(src, w, l, n) && !w.queue.recs[n].ready ==> id == Some(IdAt(w, n))
  }

  ghost predicate RecoverInv(src: Source, w: World) {
    w.quiet ==> Activatable(src, w, w.base, w.memory.id) && Activatable(src, w, w.disk.ledger, w.disk.id)
  }

  lemma RecoverSave(src: Source, w: World, v: Advance, durable: bool, saved: bool)
    requires Inv(src, w) && RecoverInv(src, w) && Enabled(src, w, Save(v, durable, saved))
    ensures RecoverInv(src, Apply(src, w, Save(v, durable, saved)))
  {
    var x := Apply(src, w, Save(v, durable, saved));
    if x.quiet && durable {
      RecoverSaved(src, w, v);
      var l := w.base + Moves(src, w, v);
      assert forall n :: Counted(src, x, l, n) <==> Counted(src, w, l, n);
      assert forall n :: Counted(src, x, x.base, n) ==> Counted(src, w, l, n);
    }
  }

  /** The new ledger keeps nothing unready but what it names. */
  lemma RecoverSaved(src: Source, w: World, v: Advance)
    requires Inv(src, w) && Activatable(src, w, w.base, w.memory.id) && CanAdvance(src, w, v)
    requires !Unsettled(w) || Named(w, v) == w.memory.id
    ensures Activatable(src, w, w.base + Moves(src, w, v), Named(w, v))
  {
    MovesTiled(src, w, v);
    var l := w.base + Moves(src, w, v);
    forall n | Counted(src, w, l, n) && !w.queue.recs[n].ready
      ensures Named(w, v) == Some(IdAt(w, n))
    {
      if Mark(IdAt(w, n)) in w.base {
        assert Counted(src, w, w.base, n);
      }
    }
  }

  /** What is put in the queue is uncommitted, or a second offer. */
  lemma RecoverEnqueue(src: Source, w: World, id: Id, payload: string, x: World)
    requires Inv(src, w) && RecoverInv(src, w) && id.stream == src.stream && !Holds(w.queue, id)
    requires x == w.(queue := LogQueue.Admit(w.queue, id, payload), hold := x.hold, twice := x.twice)
    requires w.twice <= x.twice && (Mark(id) in w.base ==> id in x.twice)
    ensures RecoverInv(src, x)
  {
    if Mark(id) in w.disk.ledger {
      assert IdOf(src, Mark(id)) == id;
    }
    assert forall n :: n in w.queue.recs ==> IdAt(x, n) == IdAt(w, n);
    assert forall n, l :: Counted(src, x, l, n) && n in w.queue.recs ==> Counted(src, w, l, n);
  }

  lemma RecoverReoffer(src: Source, w: World, end: nat, payload: string)
    requires Inv(src, w) && RecoverInv(src, w) && Enabled(src, w, Reoffer(end, payload))
    ensures RecoverInv(src, Apply(src, w, Reoffer(end, payload)))
  {
    GrownUnkept(src, w, end);
    if !Holds(w.queue, Grown(w.hold.id, end)) {
      RecoverEnqueue(src, w, Grown(w.hold.id, end), payload, Apply(src, w, Reoffer(end, payload)));
    }
  }

  lemma RecoverAdmit(src: Source, w: World, id: Id, payload: string)
    requires Inv(src, w) && RecoverInv(src, w) && Enabled(src, w, Admit(id, payload))
    ensures RecoverInv(src, Apply(src, w, Admit(id, payload)))
  {
    if id.stream != src.stream {
      RecoverForeign(src, w, id, payload);
    } else if !Holds(w.queue, id) {
      LiveUnkept(src, w, id);
      RecoverEnqueue(src, w, id, payload, Apply(src, w, Admit(id, payload)));
    }
  }

  lemma RecoverForeign(src: Source, w: World, id: Id, payload: string)
    requires Inv(src, w) && RecoverInv(src, w) && Enabled(src, w, Admit(id, payload)) && id.stream != src.stream
    ensures RecoverInv(src, Apply(src, w, Admit(id, payload)))
  {
  }

  /** Checkpoints stay as they are, or come from one another, and nothing becomes unready. */
  lemma RecoverOther(src: Source, w: World, a: Action)
    requires Inv(src, w) && RecoverInv(src, w) && Enabled(src, w, a)
    requires !a.Save? && !a.Admit? && !a.Reoffer? && !a.Note?
    ensures RecoverInv(src, Apply(src, w, a))
  {
    var x := Apply(src, w, a);
    assert x.quiet == w.quiet && x.twice == w.twice;
    RecoverQueue(src, w, a);
    assert forall n :: Counted(src, x, x.base, n) && !x.queue.recs[n].ready ==>
      (Counted(src, w, w.base, n) || Counted(src, w, w.disk.ledger, n)) && !w.queue.recs[n].ready;
  }

  lemma RecoverQueue(src: Source, w: World, a: Action)
    requires Inv(src, w) && Enabled(src, w, a)
    requires !a.Save? && !a.Admit? && !a.Reoffer? && !a.Note?
    ensures var x := Apply(src, w, a);
            forall n | n in x.queue.recs ::
              n in w.queue.recs && IdAt(x, n) == IdAt(w, n) && (w.queue.recs[n].ready ==> x.queue.recs[n].ready)
  {
  }

  lemma RecoverNote(src: Source, w: World, g: nat, o: nat, forget: bool)
    requires Inv(src, w) && RecoverInv(src, w) && Enabled(src, w, Note(g, o, forget))
    ensures RecoverInv(src, Apply(src, w, Note(g, o, forget)))
  {
    var x := Apply(src, w, Note(g, o, forget));
    assert forall e :: e in x.base <==> e in w.base || e == Begin(g, o);
    assert forall n :: Counted(src, x, x.base, n) ==> Counted(src, w, w.base, n);
    assert forall n :: Counted(src, x, x.disk.ledger, n) ==> Counted(src, w, w.disk.ledger, n);
  }

  lemma RecoverStep(src: Source, w: World, a: Action)
    requires Inv(src, w) && RecoverInv(src, w) && Enabled(src, w, a)
    ensures RecoverInv(src, Apply(src, w, a))
  {
    match a
    case Save(v, durable, saved) => RecoverSave(src, w, v, durable, saved);
    case Admit(id, payload) => RecoverAdmit(src, w, id, payload);
    case Reoffer(end, payload) => RecoverReoffer(src, w, end, payload);
    case Note(g, o, forget) => RecoverNote(src, w, g, o, forget);
    case _ => RecoverOther(src, w, a);
  }

  // ---------- a record enters the queue ----------

  /** x is w with one more record, which starts where the reader stands or with the group it holds. */
  ghost predicate Enters(src: Source, w: World, id: Id, payload: string, x: World)
    requires w.base != []
  {
    && id.stream == src.stream && id.gen == GenOf(w.base) && !Holds(w.queue, id) && !src.refuses(id)
    && src.starts(id.gen, id.start) == id.start && Mark(id) !in w.base
    && x == w.(queue := LogQueue.Admit(w.queue, id, payload), hold := x.hold)
    && (x.hold == w.hold || x.hold.Free?)
    && (forall e :: e in w.base && e.Kept? && e.gen == id.gen ==> e.start <= id.start)
    && Low(src, w) <= id.start < id.end && id.end > StartOf(src, w.base)
    && (id.start == StartOf(src, w.base) || (!w.hold.Free? && w.hold.id.start == id.start))
  }

  lemma AdmitEnters(src: Source, w: World, id: Id, payload: string)
    requires Inv(src, w) && Enabled(src, w, Admit(id, payload)) && !Holds(w.queue, id) && id.stream == src.stream
    ensures Enters(src, w, id, payload, Apply(src, w, Admit(id, payload)))
  {
    LiveUnkept(src, w, id);
    TiledBehind(w.base);
    LowBelow(src, w);
  }

  lemma ReofferEnters(src: Source, w: World, end: nat, payload: string)
    requires Inv(src, w) && Enabled(src, w, Reoffer(end, payload)) && !Holds(w.queue, Grown(w.hold.id, end))
    requires end != w.hold.id.end
    ensures Enters(src, w, Grown(w.hold.id, end), payload, Apply(src, w, Reoffer(end, payload)))
  {
    GrownUnkept(src, w, end);
  }

  /** Low never lies above the next record. */
  lemma LowBelow(src: Source, w: World)
    requires Inv(src, w)
    ensures Low(src, w) <= StartOf(src, w.base)
  {
  }

  /** What was in the queue is still there, and nothing else but the new record. */
  lemma EntersFrame(src: Source, w: World, id: Id, payload: string, x: World)
    requires Inv(src, w) && Enters(src, w, id, payload, x)
    ensures forall n :: n in x.queue.recs <==> n == w.queue.next || n in w.queue.recs
    ensures forall n :: n in w.queue.recs ==> n < w.queue.next && x.queue.recs[n] == w.queue.recs[n]
    ensures w.queue.next in x.queue.recs && IdAt(x, w.queue.next) == id
  {
  }

  lemma EntersCounted(src: Source, w: World, id: Id, payload: string, x: World, l: Ledger, m: nat)
    requires Inv(src, w) && Enters(src, w, id, payload, x) && Counted(src, x, l, m)
    ensures m <= w.queue.next
    ensures m != w.queue.next ==> Counted(src, w, l, m) && IdAt(x, m) == IdAt(w, m)
    ensures m == w.queue.next ==> Mark(id) in l
  {
  }

  lemma EntersNumbered(src: Source, w: World, id: Id, payload: string, x: World)
    requires Inv(src, w) && Numbered(src, w) && Enters(src, w, id, payload, x)
    ensures Numbered(src, x)
  {
    var n := w.queue.next;
    EntersFrame(src, w, id, payload, x);
    forall a, b | Counted(src, x, x.disk.ledger, a) && Counted(src, x, x.disk.ledger, b)
      ensures IdAt(x, a).gen == IdAt(x, b).gen && a < b ==> IdAt(x, a).start <= IdAt(x, b).start
    {
      EntersCounted(src, w, id, payload, x, x.disk.ledger, a);
      EntersCounted(src, w, id, payload, x, x.disk.ledger, b);
      if a != n && b == n {
        assert Mark(IdAt(w, a)) in w.base || w.disk.id == Some(IdOf(src, Mark(IdAt(w, a))));
        assert w.disk.id == Some(IdOf(src, Mark(id)));
      }
    }
  }

  lemma EntersTop(src: Source, w: World, id: Id, payload: string, x: World)
    requires Inv(src, w) && TopNumbered(src, w) && Enters(src, w, id, payload, x)
    ensures TopNumbered(src, x)
  {
    if !x.hold.Free? {
      forall m, n | Counted(src, x, x.base, m) && Mine(src, x.queue, n) && IdAt(x, n) !in x.twice
        && Astride(IdAt(x, m), x.hold.id, IdAt(x, n))
        ensures m < n
      {
        EntersTopAt(src, w, id, payload, x, m, n);
      }
    }
  }

  lemma EntersTopAt(src: Source, w: World, id: Id, payload: string, x: World, m: nat, n: nat)
    requires Inv(src, w) && TopNumbered(src, w) && Enters(src, w, id, payload, x) && !x.hold.Free?
    requires Counted(src, x, x.base, m) && Mine(src, x.queue, n) && IdAt(x, n) !in x.twice
    requires Astride(IdAt(x, m), x.hold.id, IdAt(x, n))
    ensures m < n
  {
    EntersFrame(src, w, id, payload, x);
    EntersCounted(src, w, id, payload, x, x.base, m);
    if n != w.queue.next {
      assert Mine(src, w.queue, n);
    }
  }

  /** Where a ledger stands to the record that enters. */
  ghost predicate Meets(src: Source, id: Id, l: Ledger)
    requires l != []
  {
    GenOf(l) == id.gen ==>
      if Mark(id) in l then id.end == OffsetOf(l)
      else id.start <= StartOf(src, l) || OnlyRefused(src, id.gen, StartOf(src, l), id.start)
  }

  /** A ledger that already holds the record leaves nothing past it waiting. */
  lemma EntersPast(src: Source, w: World, id: Id, payload: string, x: World, l: Ledger, n: nat)
    requires Inv(src, w) && Enters(src, w, id, payload, x) && l != [] && id.gen == GenOf(l)
    requires Mark(id) in l && id.end == OffsetOf(l)
    requires Stale(src, w, w.base, Low(src, w)) && Loose(src, w, w.base, n)
    ensures IdAt(w, n).start < StartOf(src, l)
  {
    assert Waits(src, w, w.base, Low(src, w), n);
    assert id == Id(src.stream, id.gen, id.start, id.end);
  }

  lemma EntersStale(src: Source, w: World, id: Id, payload: string, x: World, l: Ledger, low: nat)
    requires Inv(src, w) && Enters(src, w, id, payload, x) && l != [] && Meets(src, id, l)
    requires forall e :: e in w.base && e.Kept? ==> e in l
    requires Stale(src, w, l, low) && Stale(src, w, w.base, Low(src, w))
    requires low == StartOf(src, l) || l == w.base
    ensures Stale(src, x, l, low)
  {
    EntersFrame(src, w, id, payload, x);
    forall n | Loose(src, x, l, n)
      ensures Waits(src, x, l, low, n)
    {
      if n == w.queue.next {
        EntersLast(src, w, id, payload, x, l);
        if l == w.base { EntersBase(src, w, id, payload, x, low); }
      } else {
        assert Loose(src, w, l, n) && Waits(src, w, l, low, n);
        EntersWaits(src, w, id, payload, x, l, low, n);
      }
    }
  }

  lemma EntersBase(src: Source, w: World, id: Id, payload: string, x: World, low: nat)
    requires Inv(src, w) && Enters(src, w, id, payload, x)
    ensures id.start <= StartOf(src, w.base)
  {
    LowBelow(src, w);
  }

  lemma EntersLast(src: Source, w: World, id: Id, payload: string, x: World, l: Ledger)
    requires Inv(src, w) && Enters(src, w, id, payload, x) && l != [] && Loose(src, x, l, w.queue.next)
    ensures Late(src, x, l, w.queue.next)
  {
    forall m: nat | Counted(src, x, l, m)
      ensures m < w.queue.next
    {
      EntersCounted(src, w, id, payload, x, l, m);
    }
  }

  lemma EntersWaits(src: Source, w: World, id: Id, payload: string, x: World, l: Ledger, low: nat, n: nat)
    requires Inv(src, w) && Enters(src, w, id, payload, x) && l != [] && Meets(src, id, l)
    requires forall e :: e in w.base && e.Kept? ==> e in l
    requires Stale(src, w, w.base, Low(src, w))
    requires Loose(src, w, l, n) && Waits(src, w, l, low, n)
    ensures n in x.queue.recs && Waits(src, x, l, low, n)
  {
    EntersFrame(src, w, id, payload, x);
    if Mark(id) in l && id.gen == GenOf(l) {
      EntersPast(src, w, id, payload, x, l, n);
    } else if Late(src, w, l, n) {
      forall m: nat | Counted(src, x, l, m) && IdAt(x, m).gen == IdAt(x, n).gen
        ensures m < n
      {
        EntersCounted(src, w, id, payload, x, l, m);
      }
    }
  }

  lemma EntersAhead(src: Source, w: World, id: Id, payload: string, x: World)
    requires Inv(src, w) && Ahead(src, w) && Enters(src, w, id, payload, x)
    ensures Ahead(src, x)
  {
    EntersFrame(src, w, id, payload, x);
    forall y, m | Sent(x, y) && y.stream == src.stream && Mine(src, x.queue, m) && Sendable(x, m)
      ensures IdAt(x, m).gen == y.gen ==> y.start <= IdAt(x, m).start
    {
      assert Sent(w, y) && Mark(y) in w.base;
      if m != w.queue.next { assert Mine(src, w.queue, m) && Sendable(w, m); }
    }
  }

  lemma EntersMeets(src: Source, w: World, id: Id, payload: string, x: World)
    requires Inv(src, w) && Enters(src, w, id, payload, x)
    requires Near(src, w, w.memory.ledger) && Near(src, w, w.disk.ledger)
    ensures Meets(src, id, w.base) && Meets(src, id, w.memory.ledger) && Meets(src, id, w.disk.ledger)
  {
    LowBelow(src, w);
    assert id == Id(src.stream, id.gen, id.start, id.end);
    if Mark(id) in w.disk.ledger { assert w.disk.id == Some(IdOf(src, Mark(id))); }
  }

  /** A record that enters the queue keeps the order. */
  lemma EntersOrder(src: Source, w: World, id: Id, payload: string, x: World)
    requires Inv(src, w) && OrderInv(src, w) && Enters(src, w, id, payload, x)
    ensures OrderInv(src, x)
  {
    if w.aligned {
      EntersMeets(src, w, id, payload, x);
      EntersNumbered(src, w, id, payload, x);
      EntersTop(src, w, id, payload, x);
      EntersStale(src, w, id, payload, x, w.base, Low(src, w));
      EntersStale(src, w, id, payload, x, w.memory.ledger, StartOf(src, w.memory.ledger));
      EntersStale(src, w, id, payload, x, w.disk.ledger, StartOf(src, w.disk.ledger));
      LowBelow(src, w);
      LowRises(src, x, x.base, Low(src, w), Low(src, x));
      EntersAhead(src, w, id, payload, x);
    }
  }

  /** What waits from a lower start also waits from a higher one. */
  lemma LowRises(src: Source, w: World, l: Ledger, low: nat, higher: nat)
    requires l != [] && Stale(src, w, l, low) && low <= higher
    ensures Stale(src, w, l, higher)
  {
    forall n | Loose(src, w, l, n)
      ensures Waits(src, w, l, higher, n)
    {
      assert Waits(src, w, l, low, n);
    }
  }

  // ---------- records leave the queue, or become ready ----------

  /** Of the stream's records that count, x has some of those of w. */
  ghost predicate Within(src: Source, x: World, w: World) {
    && w.twice <= x.twice
    && forall n :: Mine(src, x.queue, n) && IdAt(x, n) !in x.twice ==> n in w.queue.recs && IdAt(x, n) == IdAt(w, n)
  }

  lemma WithinCounted(src: Source, x: World, w: World, l: Ledger)
    requires Within(src, x, w)
    ensures forall n :: Counted(src, x, l, n) ==> Counted(src, w, l, n) && IdAt(x, n) == IdAt(w, n)
  {
  }

  lemma WithinStale(src: Source, x: World, w: World, l: Ledger, low: nat)
    requires Within(src, x, w) && l != [] && Stale(src, w, l, low)
    requires forall id :: id in x.twice ==> Mark(id) in l
    ensures Stale(src, x, l, low)
  {
    WithinCounted(src, x, w, l);
    forall n | Loose(src, x, l, n)
      ensures Waits(src, x, l, low, n)
    {
      assert Loose(src, w, l, n) && Waits(src, w, l, low, n);
    }
  }

  /** Removing records, making a sendable one ready, or a second offer, keeps the order. */
  lemma ShrinkOrder(src: Source, w: World, x: World)
    requires Inv(src, w) && OrderInv(src, w) && Within(src, x, w)
    requires x.base == w.base && x.disk == w.disk && x.memory == w.memory && x.remote == w.remote
    requires x.aligned == w.aligned && x.hold == w.hold
    requires x.worker == w.worker || x.worker.Idle?
    requires forall id :: id in x.twice ==> Mark(id) in w.base
    requires forall n :: Sendable(x, n) && Mine(src, x.queue, n) ==> Sendable(w, n)
    ensures OrderInv(src, x)
  {
    if w.aligned {
      WithinCounted(src, x, w, w.base);
      WithinCounted(src, x, w, w.disk.ledger);
      assert Numbered(src, x) && TopNumbered(src, x);
      WithinStale(src, x, w, w.base, Low(src, w));
      WithinStale(src, x, w, w.memory.ledger, StartOf(src, w.memory.ledger));
      WithinStale(src, x, w, w.disk.ledger, StartOf(src, w.disk.ledger));
      ShrinkAhead(src, w, x);
    }
  }

  lemma ShrinkAhead(src: Source, w: World, x: World)
    requires Ahead(src, w) && InOrder(src, w) && Within(src, x, w)
    requires x.remote == w.remote && (x.worker == w.worker || x.worker.Idle?)
    requires forall n :: Sendable(x, n) && Mine(src, x.queue, n) ==> Sendable(w, n)
    ensures Ahead(src, x) && InOrder(src, x)
  {
    assert forall id :: Sent(x, id) ==> Sent(w, id);
    assert forall n :: Mine(src, x.queue, n) && Sendable(x, n) ==> Mine(src, w.queue, n) && IdAt(x, n) == IdAt(w, n);
  }

  /** The group stuck comes back under its own identity. */
  lemma AgainOrder(src: Source, w: World, payload: string)
    requires Inv(src, w) && OrderInv(src, w) && w.hold.Stuck? && Enabled(src, w, Reoffer(w.hold.id.end, payload))
    requires !Holds(w.queue, w.hold.id)
    ensures OrderInv(src, Apply(src, w, Reoffer(w.hold.id.end, payload)))
  {
    var x := Apply(src, w, Reoffer(w.hold.id.end, payload));
    GrownUnkept(src, w, w.hold.id.end);
    assert Grown(w.hold.id, w.hold.id.end) == w.hold.id;
    assert IdAt(x, w.queue.next) == w.hold.id && w.hold.id in x.twice;
    ShrinkOrder(src, w, x);
  }

  // ---------- checkpoints move ----------

  /** The record a save names: where the ledger ends, at the reader's position or with the group it holds. */
  ghost predicate Newest(src: Source, w: World, l: Ledger, id: Id)
    requires w.base != [] && l != []
  {
    && id.stream == src.stream && id.gen == GenOf(w.base) && id.end == OffsetOf(l)
    && src.starts(id.gen, id.start) == id.start && Low(src, w) <= id.start < id.end
    && (Mark(id) in l <==> !src.refuses(id))
    && (src.refuses(id) || Mark(id) in w.base || id.end > StartOf(src, w.base))
    && (forall e :: e in w.base && e.Kept? && e.gen == id.gen ==> e.start <= id.start)
    && (id.start == StartOf(src, w.base) || (!w.hold.Free? && w.hold.id.start == id.start))
  }

  /** The ledger of a save: what it adds is past the reader, and kept only as named. */
  ghost predicate Onward(src: Source, w: World, v: Advance)
    requires w.base != []
  {
    var l := w.base + Moves(src, w, v);
    && GenOf(l) == GenOf(w.base) && StartOf(src, l) >= StartOf(src, w.base)
    && (forall e :: e in l <==> e in w.base || e in Moves(src, w, v))
    && (forall e :: e in Moves(src, w, v) && e.Kept? ==> Named(w, v).Some? && e == Mark(Named(w, v).value))
    && (Named(w, v).Some? ==> Newest(src, w, l, Named(w, v).value))
  }

  lemma SaveOnward(src: Source, w: World, v: Advance)
    requires Inv(src, w) && CanAdvance(src, w, v)
    ensures Onward(src, w, v)
  {
    MovesTiled(src, w, v);
    OnwardStarts(src, w, v);
    match v
    case Take(id) => TakeNewest(src, w, id);
    case Again(end) => AgainNewest(src, w, end);
    case _ =>
  }

  lemma OnwardStarts(src: Source, w: World, v: Advance)
    requires Inv(src, w) && CanAdvance(src, w, v) && Advanced(src, w, v)
    ensures StartOf(src, w.base + Moves(src, w, v)) >= StartOf(src, w.base)
  {
    match v
    case Take(id) => assert OffsetOf(w.base + Moves(src, w, v)) == id.end;
    case Again(end) => assert OffsetOf(w.base + Moves(src, w, v)) == end;
    case _ =>
  }

  lemma TakeNewest(src: Source, w: World, id: Id)
    requires Inv(src, w) && CanAdvance(src, w, Take(id)) && Advanced(src, w, Take(id))
    ensures Newest(src, w, w.base + Moves(src, w, Take(id)), id)
  {
    TiledBehind(w.base);
    LowBelow(src, w);
    LiveUnkept(src, w, id);
    var l := w.base + Moves(src, w, Take(id));
    assert l[|l| - 1] == RecordOf(src, id);
    assert l[|l| - 1] in l;
  }

  lemma AgainNewest(src: Source, w: World, end: nat)
    requires Inv(src, w) && CanAdvance(src, w, Again(end)) && Advanced(src, w, Again(end))
    ensures Newest(src, w, w.base + Moves(src, w, Again(end)), Grown(w.hold.id, end))
  {
    var id := Grown(w.hold.id, end);
    GrownUnkept(src, w, end);
    var l := w.base + Moves(src, w, Again(end));
    assert l[|l| - 1] == RecordOf(src, id);
    assert l[|l| - 1] in l;
    MarkRefused(src, l, id);
    assert Ends(src, w.base, w.hold.id);
  }

  lemma MarkRefused(src: Source, l: Ledger, id: Id)
    requires Sourced(src, l) && RecordOf(src, id) in l && id.stream == src.stream
    ensures Mark(id) in l <==> !src.refuses(id)
  {
    if Mark(id) in l { assert IdOf(src, Mark(id)) == id; }
  }

  lemma SaveNear(src: Source, w: World, v: Advance, saved: bool)
    requires Inv(src, w) && OrderInv(src, w) && Enabled(src, w, Save(v, true, saved)) && Onward(src, w, v)
    ensures var x := Apply(src, w, Save(v, true, saved));
            && Last(x.base, x.memory.id) && Last(x.disk.ledger, x.disk.id)
            && (w.aligned ==> Near(src, x, x.memory.ledger) && Near(src, x, x.disk.ledger))
  {
    var l := w.base + Moves(src, w, v);
    if Named(w, v).Some? {
      var id := Named(w, v).value;
      forall e | e in l && e.Kept? && e.gen == id.gen
        ensures e.start <= id.start
      {
      }
    }
    if w.aligned && saved && !v.Overrun? {
      assert StartOf(src, l) == StartOf(src, Apply(src, w, Save(v, true, saved)).base);
    }
  }

  lemma SaveNumbered(src: Source, w: World, v: Advance, saved: bool)
    requires Inv(src, w) && OrderInv(src, w) && Enabled(src, w, Save(v, true, saved)) && Onward(src, w, v) && w.aligned
    ensures Numbered(src, Apply(src, w, Save(v, true, saved)))
  {
    var x := Apply(src, w, Save(v, true, saved));
    var l := w.base + Moves(src, w, v);
    assert x.disk.ledger == l && x.queue == w.queue && x.twice == w.twice;
    forall a: nat, b: nat | Counted(src, x, l, a) && Counted(src, x, l, b)
      ensures IdAt(x, a).gen == IdAt(x, b).gen && a < b ==> IdAt(x, a).start <= IdAt(x, b).start
    {
      assert Counted(src, w, l, a) && Counted(src, w, l, b);
      if IdAt(w, a).gen == IdAt(w, b).gen && a < b { SaveNumberedAt(src, w, v, a, b); }
    }
  }

  lemma SaveNumberedAt(src: Source, w: World, v: Advance, a: nat, b: nat)
    requires Inv(src, w) && OrderInv(src, w) && Onward(src, w, v) && w.aligned
    requires Counted(src, w, w.base + Moves(src, w, v), a) && Counted(src, w, w.base + Moves(src, w, v), b)
    requires IdAt(w, a).gen == IdAt(w, b).gen && a < b
    ensures IdAt(w, a).start <= IdAt(w, b).start
  {
    if Mark(IdAt(w, a)) in w.base && Mark(IdAt(w, b)) in w.base {
      assert Counted(src, w, w.disk.ledger, a) && Counted(src, w, w.disk.ledger, b);
    } else if Mark(IdAt(w, a)) !in w.base && Mark(IdAt(w, b)) in w.base {
      NamedLast(src, w, v, a, b);
    }
  }

  /** What a save keeps first is numbered after what starts before it. */
  lemma NamedLast(src: Source, w: World, v: Advance, a: nat, b: nat)
    requires Inv(src, w) && OrderInv(src, w) && Onward(src, w, v) && w.aligned
    requires Mine(src, w.queue, a) && IdAt(w, a) !in w.twice && Mark(IdAt(w, a)) in Moves(src, w, v) && Mark(IdAt(w, a)) !in w.base
    requires Counted(src, w, w.base, b) && IdAt(w, b).gen == IdAt(w, a).gen
    ensures b < a || IdAt(w, a).start <= IdAt(w, b).start
  {
    var id := Named(w, v).value;
    assert Mark(IdAt(w, a)) == Mark(id);
    if id.start == StartOf(src, w.base) {
      assert Loose(src, w, w.base, a) && Waits(src, w, w.base, Low(src, w), a);
    }
  }

  lemma SaveTop(src: Source, w: World, v: Advance, saved: bool)
    requires Inv(src, w) && OrderInv(src, w) && Enabled(src, w, Save(v, true, saved)) && Onward(src, w, v) && w.aligned
    ensures TopNumbered(src, Apply(src, w, Save(v, true, saved)))
  {
    var x := Apply(src, w, Save(v, true, saved));
    if saved && v.Take? {
      TakeTop(src, w, v.id, x);
    } else if saved && v.Again? {
      AgainTop(src, w, v.end, x);
    } else {
      assert x.hold.Free? || (x.hold == w.hold && x.base == w.base);
      if !x.hold.Free? { TopFrame(src, w, x); }
    }
  }

  lemma TopFrame(src: Source, w: World, x: World)
    requires TopNumbered(src, w) && x.queue == w.queue && x.twice == w.twice && x.base == w.base
    requires x.hold.Free? || (!w.hold.Free? && x.hold.id == w.hold.id)
    ensures TopNumbered(src, x)
  {
    assert forall n :: n in w.queue.recs ==> IdAt(x, n) == IdAt(w, n);
    assert forall n :: Counted(src, x, x.base, n) <==> Counted(src, w, w.base, n);
  }

  lemma TakeTop(src: Source, w: World, id: Id, x: World)
    requires Inv(src, w) && OrderInv(src, w) && Live(src, w, id) && Onward(src, w, Take(id)) && w.aligned
    requires x.queue == w.queue && x.twice == w.twice && x.base == w.base + Moves(src, w, Take(id)) && x.hold == Done(id)
    ensures TopNumbered(src, x)
  {
    TiledBehind(w.base);
    forall m: nat, n: nat | Counted(src, x, x.base, m) && Mine(src, x.queue, n) && IdAt(x, n) !in x.twice
      && Astride(IdAt(x, m), id, IdAt(x, n))
      ensures m < n
    {
      assert Counted(src, w, w.base, m);
      assert Loose(src, w, w.base, n) && Waits(src, w, w.base, Low(src, w), n);
    }
  }

  lemma AgainTop(src: Source, w: World, end: nat, x: World)
    requires Inv(src, w) && OrderInv(src, w) && w.hold.Stuck? && Onward(src, w, Again(end)) && w.aligned
    requires x.queue == w.queue && x.twice == w.twice && x.base == w.base + Moves(src, w, Again(end))
    requires x.hold == Done(Grown(w.hold.id, end))
    ensures TopNumbered(src, x)
  {
    var h := w.hold.id;
    assert forall e :: e in x.base && e.Kept? ==> e in w.base || e == Mark(x.hold.id);
    forall m, n | Counted(src, x, x.base, m) && Mine(src, x.queue, n) && IdAt(x, n) !in x.twice
      && Astride(IdAt(x, m), x.hold.id, IdAt(x, n))
      ensures m < n
    {
      assert Astride(IdAt(w, m), h, IdAt(w, n));
      assert Counted(src, w, w.base, m) && Mine(src, w.queue, n);
    }
  }

  lemma SaveStale(src: Source, w: World, v: Advance, saved: bool)
    requires Inv(src, w) && OrderInv(src, w) && Enabled(src, w, Save(v, true, saved)) && Onward(src, w, v) && w.aligned
    ensures var x := Apply(src, w, Save(v, true, saved));
            && Stale(src, x, x.base, Low(src, x))
            && Stale(src, x, x.memory.ledger, StartOf(src, x.memory.ledger))
            && Stale(src, x, x.disk.ledger, StartOf(src, x.disk.ledger))
  {
    var x := Apply(src, w, Save(v, true, saved));
    var l := w.base + Moves(src, w, v);
    LowBelow(src, w);
    SaveStaleNew(src, w, v, Low(src, w));
    LowRises(src, w, l, Low(src, w), StartOf(src, l));
    SaveLow(src, w, v, saved);
    if x.base == l { LowRises(src, w, l, Low(src, w), Low(src, x)); }
    else { LowRises(src, w, w.base, Low(src, w), Low(src, x)); }
    StaleFrame(src, w, x, x.base, Low(src, x));
    StaleFrame(src, w, x, x.memory.ledger, StartOf(src, x.memory.ledger));
    StaleFrame(src, w, x, x.disk.ledger, StartOf(src, x.disk.ledger));
  }

  lemma SaveLow(src: Source, w: World, v: Advance, saved: bool)
    requires Inv(src, w) && Enabled(src, w, Save(v, true, saved)) && Onward(src, w, v)
    ensures Low(src, Apply(src, w, Save(v, true, saved))) >= Low(src, w)
  {
    LowBelow(src, w);
  }

  lemma StaleFrame(src: Source, w: World, x: World, l: Ledger, low: nat)
    requires x.queue == w.queue && x.twice == w.twice && l != [] && Stale(src, w, l, low)
    ensures Stale(src, x, l, low)
  {
    assert forall n :: n in w.queue.recs ==> IdAt(x, n) == IdAt(w, n);
    assert forall n :: Counted(src, x, l, n) <==> Counted(src, w, l, n);
    forall n | Loose(src, x, l, n)
      ensures Waits(src, x, l, low, n)
    {
      assert Loose(src, w, l, n) && Waits(src, w, l, low, n);
    }
  }

  lemma SaveStaleNew(src: Source, w: World, v: Advance, low: nat)
    requires Inv(src, w) && Stale(src, w, w.base, low) && low == Low(src, w) && CanAdvance(src, w, v) && Onward(src, w, v)
    ensures Stale(src, w, w.base + Moves(src, w, v), low)
  {
    var l := w.base + Moves(src, w, v);
    forall n | Loose(src, w, l, n)
      ensures Waits(src, w, l, low, n)
    {
      assert Loose(src, w, w.base, n) && Waits(src, w, w.base, low, n);
      if IdAt(w, n).start >= StartOf(src, l) {
        SaveWaits(src, w, v, low, n);
      }
    }
  }

  lemma SaveWaits(src: Source, w: World, v: Advance, low: nat, n: nat)
    requires Inv(src, w) && low == Low(src, w) && Onward(src, w, v)
    requires Loose(src, w, w.base, n) && Waits(src, w, w.base, low, n)
    requires IdAt(w, n).start >= StartOf(src, w.base + Moves(src, w, v))
    ensures Waits(src, w, w.base + Moves(src, w, v), low, n)
  {
    var l := w.base + Moves(src, w, v);
    var t := IdAt(w, n).start;
    if Named(w, v).Some? {
      var id := Named(w, v).value;
      assert id == Id(src.stream, id.gen, id.start, id.end);
    }
    forall m: nat | Counted(src, w, l, m) && IdAt(w, m).gen == IdAt(w, n).gen
      ensures m < n
    {
      if Mark(IdAt(w, m)) in w.base { assert Counted(src, w, w.base, m); }
    }
  }

  lemma SaveAhead(src: Source, w: World, v: Advance, saved: bool)
    requires Inv(src, w) && OrderInv(src, w) && Enabled(src, w, Save(v, true, saved)) && Onward(src, w, v) && w.aligned
    ensures Ahead(src, Apply(src, w, Save(v, true, saved)))
  {
    var x := Apply(src, w, Save(v, true, saved));
    forall y, m | Sent(x, y) && y.stream == src.stream && Mine(src, x.queue, m) && Sendable(x, m)
      ensures IdAt(x, m).gen == y.gen ==> y.start <= IdAt(x, m).start
    {
      assert Sent(w, y) && Mark(y) in w.base;
      assert Sendable(w, m) || Named(w, v) == Some(IdAt(x, m));
    }
  }

  lemma SaveOrder(src: Source, w: World, v: Advance, durable: bool, saved: bool)
    requires Inv(src, w) && OrderInv(src, w) && Enabled(src, w, Save(v, durable, saved))
    ensures OrderInv(src, Apply(src, w, Save(v, durable, saved)))
  {
    if durable {
      SaveOnward(src, w, v);
      SaveNear(src, w, v, saved);
      if w.aligned {
        SaveNumbered(src, w, v, saved);
        SaveTop(src, w, v, saved);
        SaveStale(src, w, v, saved);
        SaveAhead(src, w, v, saved);
      }
    } else {
      var x := Apply(src, w, Save(v, durable, saved));
      assert x == w.(quiet := x.quiet);
      ShrinkOrder(src, w, x);
    }
  }

  // ---------- the other steps ----------

  lemma NoteOrder(src: Source, w: World, g: nat, o: nat, forget: bool)
    requires Inv(src, w) && OrderInv(src, w) && Enabled(src, w, Note(g, o, forget))
    ensures OrderInv(src, Apply(src, w, Note(g, o, forget)))
  {
    var x := Apply(src, w, Note(g, o, forget));
    assert forall e :: e in x.base <==> e in w.base || e == Begin(g, o);
    assert Last(x.base, x.memory.id) && Last(x.disk.ledger, x.disk.id);
    if x.aligned {
      NoteStale(src, w, g, o, forget);
      NoteAhead(src, w, x);
      NumberedFrame(src, w, x);
      assert x.hold.Free?;
      NoteNear(src, w, g, o, forget);
    }
  }

  lemma NoteNear(src: Source, w: World, g: nat, o: nat, forget: bool)
    requires Inv(src, w) && OrderInv(src, w) && Enabled(src, w, Note(g, o, forget))
    requires Apply(src, w, Note(g, o, forget)).aligned
    ensures var x := Apply(src, w, Note(g, o, forget)); Near(src, x, x.memory.ledger) && Near(src, x, x.disk.ledger)
  {
  }

  lemma NumberedFrame(src: Source, w: World, x: World)
    requires Numbered(src, w) && x.queue == w.queue && x.twice == w.twice
    requires forall e: Event :: e.Kept? && e in x.disk.ledger ==> e in w.disk.ledger
    ensures Numbered(src, x)
  {
    assert forall n :: n in w.queue.recs ==> IdAt(x, n) == IdAt(w, n);
    assert forall n :: Counted(src, x, x.disk.ledger, n) ==> Counted(src, w, w.disk.ledger, n);
  }

  lemma NoteStale(src: Source, w: World, g: nat, o: nat, forget: bool)
    requires Inv(src, w) && OrderInv(src, w) && Enabled(src, w, Note(g, o, forget))
    requires Apply(src, w, Note(g, o, forget)).aligned
    ensures var x := Apply(src, w, Note(g, o, forget));
            && Stale(src, x, x.base, Low(src, x))
            && Stale(src, x, x.memory.ledger, StartOf(src, x.memory.ledger))
            && Stale(src, x, x.disk.ledger, StartOf(src, x.disk.ledger))
  {
    var x := Apply(src, w, Note(g, o, forget));
    assert forall e :: e in x.base <==> e in w.base || e == Begin(g, o);
    assert GenOf(x.base) == g && OffsetOf(x.base) == o;
    TiledBehind(w.base);
    forall n | Loose(src, x, x.base, n)
      ensures Waits(src, x, x.base, Low(src, x), n)
    {
      assert LeftOver(src, x, n);
      assert forall m :: Counted(src, x, x.base, m) ==> IdAt(x, m).gen < g;
    }
    StaleFrame(src, w, x, w.memory.ledger, StartOf(src, w.memory.ledger));
    StaleFrame(src, w, x, w.disk.ledger, StartOf(src, w.disk.ledger));
  }

  /** Fewer records can be sent, and none was handed out since. */
  lemma NoteAhead(src: Source, w: World, x: World)
    requires Inv(src, w) && Ahead(src, w) && x.queue == w.queue && x.twice == w.twice
    requires x.remote == w.remote && (x.worker == w.worker || x.worker.Idle?)
    requires x.memory.id.Some? ==> x.memory.id == w.memory.id || x.memory.id == w.disk.id
    requires x.disk.id.Some? ==> x.disk.id == w.memory.id || x.disk.id == w.disk.id
    ensures Ahead(src, x)
  {
    assert forall n :: Sendable(x, n) ==> Sendable(w, n) && IdAt(x, n) == IdAt(w, n);
    assert forall id :: Sent(x, id) ==> Sent(w, id);
  }

  /** Ledgers and memories come from one another. */
  lemma ReturnOrder(src: Source, w: World, a: Action)
    requires Inv(src, w) && OrderInv(src, w) && Enabled(src, w, a) && (a.Restart? || a.Resave? || a.Reopen?)
    ensures OrderInv(src, Apply(src, w, a))
  {
    var x := Apply(src, w, a);
    assert Last(x.base, x.memory.id) && Last(x.disk.ledger, x.disk.id);
    if x.aligned {
      NumberedFrame(src, w, x);
      ReturnStale(src, w, a);
      NoteAhead(src, w, x);
      if a.Resave? { TopFrame(src, w, x); }
      assert Near(src, x, x.memory.ledger) && Near(src, x, x.disk.ledger);
    }
  }

  lemma ReturnStale(src: Source, w: World, a: Action)
    requires Inv(src, w) && OrderInv(src, w) && Enabled(src, w, a) && (a.Restart? || a.Resave? || a.Reopen?) && w.aligned
    ensures var x := Apply(src, w, a);
            && Stale(src, x, x.base, Low(src, x))
            && Stale(src, x, x.memory.ledger, StartOf(src, x.memory.ledger))
            && Stale(src, x, x.disk.ledger, StartOf(src, x.disk.ledger))
  {
    var x := Apply(src, w, a);
    if a.Resave? {
      StaleFrame(src, w, x, w.base, Low(src, w));
    } else {
      StaleFrame(src, w, x, x.base, StartOf(src, x.base));
    }
    StaleFrame(src, w, x, x.memory.ledger, StartOf(src, x.memory.ledger));
    StaleFrame(src, w, x, x.disk.ledger, StartOf(src, x.disk.ledger));
  }

  /** The head is at or before every other record that can still be delivered. */
  lemma HeadFirst(src: Source, w: World, n: nat)
    requires Inv(src, w) && OrderInv(src, w) && w.aligned && IsHead(w.queue, n) && Mine(src, w.queue, n)
    requires IdAt(w, n) !in w.twice
    ensures forall m | Mine(src, w.queue, m) && Sendable(w, m) ::
              IdAt(w, m).gen == IdAt(w, n).gen ==> IdAt(w, n).start <= IdAt(w, m).start
  {
    assert Counted(src, w, w.disk.ledger, n);
    forall m | Mine(src, w.queue, m) && Sendable(w, m) && IdAt(w, m).gen == IdAt(w, n).gen
      ensures IdAt(w, n).start <= IdAt(w, m).start
    {
      if w.queue.recs[m].ready {
        assert Counted(src, w, w.disk.ledger, m);
      }
    }
  }

  lemma PeekOrder(src: Source, w: World, n: nat)
    requires Inv(src, w) && OrderInv(src, w) && Enabled(src, w, Peek(n))
    ensures OrderInv(src, Apply(src, w, Peek(n)))
  {
    var x := Apply(src, w, Peek(n));
    var y := w.(worker := Idle);
    ShrinkOrder(src, w, y);
    ArrangedFrame(src, y, x);
    if w.aligned {
      if Mine(src, w.queue, n) && IdAt(w, n) !in w.twice { HeadFirst(src, w, n); }
      PeekAhead(src, w, n);
    }
  }

  lemma PeekAhead(src: Source, w: World, n: nat)
    requires Inv(src, w) && OrderInv(src, w) && Enabled(src, w, Peek(n)) && w.aligned
    requires Mine(src, w.queue, n) && IdAt(w, n) !in w.twice ==>
               forall m | Mine(src, w.queue, m) && Sendable(w, m) ::
                 IdAt(w, m).gen == IdAt(w, n).gen ==> IdAt(w, n).start <= IdAt(w, m).start
    ensures Ahead(src, Apply(src, w, Peek(n)))
  {
    var x := Apply(src, w, Peek(n));
    assert forall id :: Sent(x, id) ==> Sent(w, id) || id == IdAt(w, n);
    assert forall m :: Sendable(x, m) <==> Sendable(w, m);
    assert Mine(src, w.queue, n) && IdAt(w, n) !in w.twice ==> Sendable(w, n);
    assert IdAt(w, n).stream == src.stream ==> Mine(src, w.queue, n);
  }

  lemma ArrangedFrame(src: Source, w: World, x: World)
    requires w.base != [] && w.memory.ledger != [] && w.disk.ledger != [] && Arranged(src, w)
    requires x == w.(worker := x.worker, remote := x.remote, heard := x.heard)
    ensures Arranged(src, x)
  {
    if w.aligned {
      assert forall n :: n in w.queue.recs ==> IdAt(x, n) == IdAt(w, n);
      assert forall n, l :: Counted(src, x, l, n) <==> Counted(src, w, l, n);
      StaleFrame(src, w, x, w.base, Low(src, w));
      StaleFrame(src, w, x, w.memory.ledger, StartOf(src, w.memory.ledger));
      StaleFrame(src, w, x, w.disk.ledger, StartOf(src, w.disk.ledger));
    }
  }

  lemma SendOrder(src: Source, w: World, accepted: bool)
    requires Inv(src, w) && OrderInv(src, w) && Enabled(src, w, Send(accepted))
    ensures OrderInv(src, Apply(src, w, Send(accepted)))
  {
    var x := Apply(src, w, Send(accepted));
    ArrangedFrame(src, w, x);
    if w.aligned {
      SendAhead(src, w, accepted);
      forall i, j | 0 <= i < j < |x.remote| && x.remote[i].stream == x.remote[j].stream == src.stream
                    && x.remote[i] !in x.twice && x.remote[j] !in x.twice
        ensures x.remote[i].gen == x.remote[j].gen ==> x.remote[i].start <= x.remote[j].start
      {
        if j == |w.remote| { assert x.remote[i] in w.remote; }
      }
    }
  }

  lemma SendAhead(src: Source, w: World, accepted: bool)
    requires Ahead(src, w) && Enabled(src, w, Send(accepted))
    ensures Ahead(src, Apply(src, w, Send(accepted)))
  {
    var x := Apply(src, w, Send(accepted));
    assert forall id :: Sent(x, id) ==> Sent(w, id);
    assert forall m :: Sendable(x, m) <==> Sendable(w, m);
  }

  lemma AdmitOrder(src: Source, w: World, id: Id, payload: string)
    requires Inv(src, w) && OrderInv(src, w) && Enabled(src, w, Admit(id, payload))
    ensures OrderInv(src, Apply(src, w, Admit(id, payload)))
  {
    var x := Apply(src, w, Admit(id, payload));
    if id.stream != src.stream {
      ShrinkOrder(src, w, x);
    } else if Holds(w.queue, id) {
      HoldOrder(src, w, x);
    } else {
      AdmitEnters(src, w, id, payload);
      EntersOrder(src, w, id, payload, x);
    }
  }

  /** Letting go of the group, or keeping it, leaves the order alone. */
  lemma HoldOrder(src: Source, w: World, x: World)
    requires Inv(src, w) && OrderInv(src, w)
    requires x == w.(hold := x.hold) && (x.hold.Free? || (!w.hold.Free? && x.hold.id == w.hold.id))
    ensures OrderInv(src, x)
  {
    if w.aligned {
      LowBelow(src, w);
      LowRises(src, w, w.base, Low(src, w), Low(src, x));
      StaleFrame(src, w, x, w.base, Low(src, x));
      StaleFrame(src, w, x, w.memory.ledger, StartOf(src, w.memory.ledger));
      StaleFrame(src, w, x, w.disk.ledger, StartOf(src, w.disk.ledger));
      NoteAhead(src, w, x);
      NumberedFrame(src, w, x);
      TopFrame(src, w, x);
    }
  }

  lemma ReofferOrder(src: Source, w: World, end: nat, payload: string)
    requires Inv(src, w) && OrderInv(src, w) && Enabled(src, w, Reoffer(end, payload))
    ensures OrderInv(src, Apply(src, w, Reoffer(end, payload)))
  {
    var id := Grown(w.hold.id, end);
    if !Holds(w.queue, id) {
      if end == w.hold.id.end {
        AgainOrder(src, w, payload);
      } else {
        ReofferEnters(src, w, end, payload);
        EntersOrder(src, w, id, payload, Apply(src, w, Reoffer(end, payload)));
      }
    }
  }

  lemma QueueOrder(src: Source, w: World, a: Action)
    requires Inv(src, w) && OrderInv(src, w) && Enabled(src, w, a)
    requires a.Reserve? || a.Activate? || a.Ack? || a.Release? || a.Rot?
    ensures OrderInv(src, Apply(src, w, a))
  {
    ShrinkOrder(src, w, Apply(src, w, a));
  }

  /** Every step keeps the order. */
  lemma StepOrder(src: Source, w: World, a: Action)
    requires Inv(src, w) && OrderInv(src, w) && Enabled(src, w, a)
    ensures OrderInv(src, Apply(src, w, a))
  {
    match a
    case Admit(id, payload) => AdmitOrder(src, w, id, payload);
    case Save(v, durable, saved) => SaveOrder(src, w, v, durable, saved);
    case Stick => HoldOrder(src, w, Apply(src, w, a));
    case Reoffer(end, payload) => ReofferOrder(src, w, end, payload);
    case Note(g, o, forget) => NoteOrder(src, w, g, o, forget);
    case Peek(n) => PeekOrder(src, w, n);
    case Send(accepted) => SendOrder(src, w, accepted);
    case Restart => ReturnOrder(src, w, a);
    case Resave => ReturnOrder(src, w, a);
    case Reopen => ReturnOrder(src, w, a);
    case _ => QueueOrder(src, w, a);
  }
}
