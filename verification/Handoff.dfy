/**
Admit, checkpoint, activate, deliver, acknowledge.

One stream (a tailed file, or the journal) hands its records to the logs queue while
other streams use the same queue, one worker drains it, and the machine may stop at
any point.  The world holds the queue, the durable checkpoint, what the reader
believes it has committed, the worker, and everything the remote has ingested.
*/
module Handoff {
  import opened Storage
  import opened LogQueue

  /**
  What happened to a byte range of a generation.  Rejected ranges hold rejected lines
  only; passed ones belong to lines the reader still holds in memory while its
  checkpoint is already beyond them.
  */
  datatype Event =
    | Begin(gen: nat, offset: nat)
    | Kept(gen: nat, start: nat, end: nat)
    | Refused(gen: nat, start: nat, end: nat)
    | Rejected(gen: nat, start: nat, end: nat)
    | Passed(gen: nat, start: nat, end: nat)

  type Ledger = seq<Event>

  /** A durable checkpoint: its position, its admission identity, and how it got there. */
  datatype Checkpoint = Checkpoint(ledger: Ledger, id: Option<Id>)

  datatype Worker = Idle | Holding(n: nat, id: Id, payload: string, accepted: bool)

  /**
  The group the reader committed last: still possibly at hand, or stuck there because
  its activation failed, in which case the reader will offer it again.
  */
  datatype Hold = Free | Done(id: Id) | Stuck(id: Id)

  datatype World = World(
    queue: Queue,
    base: Ledger,           // progress the reader has committed
    memory: Checkpoint,     // the stream's entry in the reader's checkpoint table
    disk: Checkpoint,
    hold: Hold,
    worker: Worker,
    remote: seq<Id>,
    heard: seq<string>,     // the payload of each delivery to the remote
    acked: set<Id>,
    rotten: set<Id>,        // records found undecodable and kept aside
    twice: set<Id>,         // records a second offer put back after they had left the queue
    aligned: bool,          // no generation was begun, and no file reopened, where order can be lost
    quiet: bool             // no checkpoint has replaced one whose record was still unready
  )

  /**
  The stream: where the next record starts at or after an offset, which records the
  encoder refuses, and what a record says.  All are functions of the bytes of a generation.
  */
  datatype Source = Source(stream: Stream, starts: (nat, nat) -> nat, refuses: Id -> bool, text: Id -> string)

  ghost predicate Regular(src: Source) {
    forall g: nat, o: nat :: src.starts(g, o) >= o && src.starts(g, src.starts(g, o)) == src.starts(g, o)
  }

  // ---------- ledgers ----------

  function GenOf(l: Ledger): nat
    requires l != []
  {
    l[|l| - 1].gen
  }

  function After(e: Event): nat { if e.Begin? then e.offset else e.end }

  function OffsetOf(l: Ledger): nat
    requires l != []
  {
    After(l[|l| - 1])
  }

  function StartOf(src: Source, l: Ledger): nat
    requires l != []
  {
    src.starts(GenOf(l), OffsetOf(l))
  }

  predicate IsRecord(e: Event) { e.Kept? || e.Refused? }

  /** A record that was offered again, from the same start, right after itself. */
  ghost predicate Regrown(l: Ledger, k: nat)
    requires 0 < k < |l|
  {
    && IsRecord(l[k])
    && (|| (IsRecord(l[k - 1]) && l[k - 1].start == l[k].start)
        || (k >= 2 && l[k - 1].Rejected? && IsRecord(l[k - 2]) && l[k - 2].start == l[k].start))
  }

  ghost predicate Follows(l: Ledger, k: nat)
    requires 0 < k < |l|
  {
    if l[k].Begin? then l[k].gen > l[k - 1].gen
    else
      && l[k].gen == l[k - 1].gen && l[k].start < l[k].end
      && l[k].start <= After(l[k - 1]) <= l[k].end
      && (l[k].start == After(l[k - 1]) || Regrown(l, k))
  }

  /** The ranges of a generation follow one another without gap; only a record offered again overlaps. */
  ghost predicate Tiled(l: Ledger) {
    && l != [] && l[0].Begin?
    && forall k :: 0 < k < |l| ==> Follows(l, k)
  }

  lemma TiledPrefix(l: Ledger, n: nat)
    requires Tiled(l) && 0 < n <= |l|
    ensures Tiled(l[..n])
  {
    forall k | 0 < k < n
      ensures Follows(l[..n], k)
    {
      assert Follows(l, k);
    }
  }

  lemma TiledAppend(l: Ledger, e: Event)
    requires Tiled(l)
    requires Follows(l + [e], |l|)
    ensures Tiled(l + [e])
  {
    forall k | 0 < k < |l + [e]|
      ensures Follows(l + [e], k)
    {
      if k < |l| { assert Follows(l, k); }
    }
  }

  /** Ranges lie before the position of the ledger. */
  ghost predicate Behind(l: Ledger)
    requires l != []
  {
    forall e :: e in l && !e.Begin? ==> e.gen <= GenOf(l) && e.start < e.end && (e.gen == GenOf(l) ==> e.end <= OffsetOf(l))
  }

  lemma {:induction false} TiledBehind(l: Ledger)
    requires Tiled(l)
    ensures Behind(l)
  {
    if |l| > 1 {
      var m := l[..|l| - 1];
      TiledPrefix(l, |l| - 1);
      TiledBehind(m);
      assert l == m + [l[|l| - 1]];
      assert Follows(l, |l| - 1);
    }
  }

  function Mark(id: Id): Event { Kept(id.gen, id.start, id.end) }

  function IdOf(src: Source, e: Event): Id
    requires !e.Begin?
  {
    Id(src.stream, e.gen, e.start, e.end)
  }

  function RecordOf(src: Source, id: Id): Event {
    if src.refuses(id) then Refused(id.gen, id.start, id.end) else Mark(id)
  }

  /** What is rejected holds no record; what is refused the encoder refused, and nothing else. */
  ghost predicate Sourced(src: Source, l: Ledger) {
    forall e :: e in l ==>
      && (e.Kept? ==> !src.refuses(IdOf(src, e)))
      && (e.Rejected? ==> src.starts(e.gen, e.start) >= e.end)
      && (e.Refused? ==> src.refuses(IdOf(src, e)))
  }

  // ---------- what the reader may do ----------

  /** The reader's next record starts where the stream says it does. */
  ghost predicate Live(src: Source, w: World, id: Id)
    requires w.base != []
  {
    && !w.hold.Stuck?
    && id.stream == src.stream
    && id.gen == GenOf(w.base)
    && id.start == StartOf(src, w.base)
    && id.end > id.start
  }

  /** The group stuck, with the lines that joined it since. */
  function Grown(h: Id, end: nat): Id { h.(end := end) }

  /** Whether lines may have joined: none, or up to an end past the next record's start. */
  predicate Joins(src: Source, h: Id, end: nat) {
    end == h.end || end > src.starts(h.gen, h.end)
  }

  /**
  How a checkpoint moves: past rejected lines, past a record, past an oversize line while
  lines are held, past a group offered again, or not at all.
  */
  datatype Advance =
    | Skip(to: nat)
    | Take(id: Id)
    | Overrun(start: nat, end: nat, to: nat)
    | Again(end: nat)
    | Restate

  function Gap(g: nat, from: nat, to: nat): Ledger {
    if from < to then [Rejected(g, from, to)] else []
  }

  function Moves(src: Source, w: World, a: Advance): Ledger
    requires w.base != []
  {
    var g, o := GenOf(w.base), OffsetOf(w.base);
    match a
    case Skip(to) => Gap(g, o, to)
    case Take(id) => Gap(g, o, id.start) + [RecordOf(src, id)]
    case Overrun(s, e, to) => Gap(g, o, s) + (if s < e then [Passed(g, s, e)] else []) + Gap(g, e, to)
    case Again(end) =>
      if w.hold.Stuck? then
        (if end > o then Gap(g, o, src.starts(g, o)) else []) + [RecordOf(src, Grown(w.hold.id, end))]
      else []
    case Restate => []
  }

  function Named(w: World, a: Advance): Option<Id> {
    if a.Take? then Some(a.id)
    else if a.Again? && w.hold.Stuck? then Some(Grown(w.hold.id, a.end))
    else None
  }

  /** A record is queued, acknowledged after the remote took it, or kept aside as rotten. */
  ghost predicate Accounted(w: World, id: Id) {
    Holds(w.queue, id) || id in w.acked || id in w.rotten
  }

  /** The record was put in the queue, or the encoder refused it. */
  ghost predicate Offered(src: Source, w: World, id: Id) { src.refuses(id) || Accounted(w, id) }

  ghost predicate CanAdvance(src: Source, w: World, a: Advance)
    requires w.base != []
  {
    var g, o := GenOf(w.base), OffsetOf(w.base);
    match a
    case Skip(to) => !w.hold.Stuck? && to > o && src.starts(g, to) == src.starts(g, o)
    case Take(id) => Live(src, w, id) && Offered(src, w, id)
    case Overrun(s, e, to) =>
      && e <= to && src.starts(g, to) == src.starts(g, e)
      && ((s == src.starts(g, o) && s < e) || (w.hold.Stuck? && s == e == o))
    case Again(end) => w.hold.Stuck? && Joins(src, w.hold.id, end) && Offered(src, w, Grown(w.hold.id, end))
    case Restate => true
  }

  /** The reader remembers an admission that is still unready, and not a second offer. */
  ghost predicate Unsettled(w: World) {
    && w.memory.id.Some? && w.memory.id.value !in w.twice
    && exists n :: n in w.queue.recs && w.queue.recs[n].id == w.memory.id.value && !w.queue.recs[n].ready
  }

  datatype Action =
    | Reserve
    | Admit(id: Id, payload: string)
    | Save(advance: Advance, durable: bool, saved: bool)
    | Stick                                             // an activation failed, and the group is kept at hand
    | Reoffer(end: nat, payload: string)                // the group stuck is offered again
    | Note(gen: nat, offset: nat, forget: bool)
    | Resave
    | Reopen
    | Activate(id: Id)
    | Peek(n: nat)
    | Send(accepted: bool)
    | Ack
    | Release
    | Rot(n: nat)
    | Restart

  ghost predicate Enabled(src: Source, w: World, a: Action) {
    w.base != [] &&
    match a
    case Reserve => true
    case Admit(id, payload) => id.stream == src.stream ==> Live(src, w, id) && !src.refuses(id) && payload == src.text(id)
    case Save(v, durable, saved) => CanAdvance(src, w, v) && (saved ==> durable)
    case Stick => w.hold.Done?
    case Reoffer(end, payload) =>
      && w.hold.Stuck? && Joins(src, w.hold.id, end)
      && !src.refuses(Grown(w.hold.id, end)) && payload == src.text(Grown(w.hold.id, end))
    case Note(g, _, _) => g > GenOf(w.base)
    case Resave => true
    case Reopen => w.memory.ledger != []
    case Activate(id) => id.stream == src.stream ==> w.memory.id == Some(id)
    case Peek(n) => w.worker.Idle? && IsHead(w.queue, n)
    case Send(_) => w.worker.Holding?
    case Ack => w.worker.Holding? && w.worker.accepted && IsHead(w.queue, w.worker.n)
    case Release => true
    case Rot(n) => n in w.queue.recs
    case Restart => w.disk.ledger != []
  }

  /** The hold after a checkpoint was saved. */
  function HoldAfter(w: World, v: Advance): Hold {
    match v
    case Take(id) => Done(id)
    case Again(end) => if w.hold.Stuck? then Done(Grown(w.hold.id, end)) else Free
    case Overrun(_, _, _) => if w.hold.Stuck? then w.hold else Free
    case _ => Free
  }

  ghost function Apply(src: Source, w: World, a: Action): World
    requires Enabled(src, w, a)
  {
    match a
    case Reserve => w.(queue := LogQueue.Reserve(w.queue))
    case Admit(id, payload) =>
      var hold := if id.stream == src.stream then Free else w.hold;
      if Holds(w.queue, id) then w.(hold := hold)
      else w.(queue := LogQueue.Admit(w.queue, id, payload), hold := hold)
    case Save(v, durable, saved) =>
      var l := w.base + Moves(src, w, v);
      w.(disk := if durable then Checkpoint(l, Named(w, v)) else w.disk,
         memory := if saved then Checkpoint(l, Named(w, v)) else w.memory,
         base := if saved && !v.Overrun? then l else w.base,
         hold := if saved then HoldAfter(w, v) else w.hold,
         quiet := w.quiet && (durable ==> !Unsettled(w) || Named(w, v) == w.memory.id))
    case Stick => w.(hold := Stuck(w.hold.id))
    case Reoffer(end, payload) =>
      var id := Grown(w.hold.id, end);
      if Holds(w.queue, id) then w
      else w.(queue := LogQueue.Admit(w.queue, id, payload), twice := if end == w.hold.id.end then w.twice + {id} else w.twice)
    case Note(g, o, forget) =>
      var l := w.base + [Begin(g, o)];
      var x := w.(base := l,
                  memory := if forget then Checkpoint(l, None) else w.memory,
                  hold := Free,
                  quiet := w.quiet && (forget ==> !Unsettled(w)));
      x.(aligned := w.aligned && Straight(src, x))
    case Resave => w.(disk := w.memory)
    case Reopen =>
      var x := w.(base := w.memory.ledger, hold := Free);
      x.(aligned := w.aligned && Straight(src, x))
    case Activate(id) => w.(queue := LogQueue.Activate(w.queue, id))
    case Peek(n) => w.(worker := Holding(n, w.queue.recs[n].id, w.queue.recs[n].payload, false))
    case Send(accepted) =>
      w.(remote := w.remote + [w.worker.id], heard := w.heard + [w.worker.payload],
         worker := w.worker.(accepted := accepted || w.worker.accepted))
    case Ack => w.(queue := Without(w.queue, w.worker.n), acked := w.acked + {w.worker.id}, worker := Idle)
    case Release => w.(worker := Idle)
    case Rot(n) => w.(queue := Without(w.queue, n), rotten := w.rotten + {w.queue.recs[n].id})
    case Restart => w.(base := w.disk.ledger, memory := w.disk, hold := Free, worker := Idle)
  }

  // ---------- where order can be lost ----------

  /** Nothing but refused records fits between two record starts. */
  ghost predicate OnlyRefused(src: Source, g: nat, from: nat, to: nat) {
    forall t: nat, e: nat {:trigger src.refuses(Id(src.stream, g, t, e))} ::
      from <= t < e <= to && src.starts(g, t) == t && src.starts(g, e) <= to ==> src.refuses(Id(src.stream, g, t, e))
  }

  /** The encoder refuses whatever starts here. */
  ghost predicate AllRefused(src: Source, g: nat, s: nat) {
    forall y: nat {:trigger src.refuses(Id(src.stream, g, s, y))} :: y > s ==> src.refuses(Id(src.stream, g, s, y))
  }

  ghost predicate Mine(src: Source, q: Queue, n: nat) {
    n in q.recs && q.recs[n].id.stream == src.stream
  }

  /** An admission of the generation that the reader has not committed. */
  ghost predicate LeftOver(src: Source, w: World, n: nat)
    requires w.base != []
  {
    && Mine(src, w.queue, n)
    && w.queue.recs[n].id.gen == GenOf(w.base)
    && Mark(w.queue.recs[n].id) !in w.base
  }

  /**
  A checkpoint that a restart may go back to lies past the reader's next record, or
  leaves nothing admissible between itself and that record, or nothing can be admitted
  there at all.
  */
  ghost predicate Near(src: Source, w: World, l: Ledger)
    requires w.base != [] && l != []
  {
    GenOf(l) == GenOf(w.base) ==>
      var s := StartOf(src, w.base);
      StartOf(src, l) > s || OnlyRefused(src, GenOf(l), StartOf(src, l), s) || AllRefused(src, GenOf(l), s)
  }

  /** No left-over admission can be overtaken by a record that comes before it. */
  ghost predicate Straight(src: Source, w: World)
    requires w.base != []
  {
    && (forall n :: LeftOver(src, w, n) ==>
          var s := StartOf(src, w.base);
          w.queue.recs[n].id.start < s || OnlyRefused(src, GenOf(w.base), s, w.queue.recs[n].id.start))
    && (w.disk.ledger != [] ==> Near(src, w, w.disk.ledger))
  }

  // ---------- invariants ----------

  /** The checkpoint table keeps what the reader committed, and the disk at most one record more. */
  ghost predicate LedgersOk(src: Source, w: World) {
    && Tiled(w.base) && Tiled(w.memory.ledger) && Tiled(w.disk.ledger)
    && GenOf(w.memory.ledger) <= GenOf(w.base)
    && (forall e: Event :: e.Kept? ==> (e in w.memory.ledger <==> e in w.base))
    && (forall e :: e in w.base && e.Kept? ==> e in w.disk.ledger)
    && (forall e :: e in w.disk.ledger && e.Kept? && e !in w.base ==> w.disk.id == Some(IdOf(src, e)))
  }

  ghost predicate AllSourced(src: Source, w: World) {
    Sourced(src, w.base) && Sourced(src, w.memory.ledger) && Sourced(src, w.disk.ledger)
  }

  /** Nothing kept is lost. */
  ghost predicate NothingLost(src: Source, w: World) {
    forall e :: e in w.disk.ledger && e.Kept? ==> Accounted(w, IdOf(src, e))
  }

  /** Only what the checkpoint covers can be delivered. */
  ghost predicate ReadyCovered(src: Source, w: World) {
    forall n :: Mine(src, w.queue, n) && w.queue.recs[n].ready ==> Mark(w.queue.recs[n].id) in w.base
  }

  /** A remembered admission is where its ledger ends, and was kept there or refused. */
  ghost predicate Remembered(src: Source, c: Checkpoint)
    requires c.ledger != []
  {
    c.id.Some? ==>
      && c.id.value.stream == src.stream && c.id.value.gen == GenOf(c.ledger) && c.id.value.end == OffsetOf(c.ledger)
      && (Mark(c.id.value) in c.ledger || src.refuses(c.id.value))
  }

  ghost predicate NamesOk(src: Source, w: World)
    requires w.memory.ledger != [] && w.disk.ledger != []
  {
    && (forall n :: Mine(src, w.queue, n) ==>
          !src.refuses(w.queue.recs[n].id) && w.queue.recs[n].id.start < w.queue.recs[n].id.end
          && src.starts(w.queue.recs[n].id.gen, w.queue.recs[n].id.start) == w.queue.recs[n].id.start)
    && Remembered(src, w.memory) && Remembered(src, w.disk)
  }

  /** The group ends the ledger, and nothing of its generation was kept past its start. */
  ghost predicate Ends(src: Source, l: Ledger, h: Id)
    requires l != []
  {
    && h.stream == src.stream && h.gen == GenOf(l) && h.start < h.end
    && src.starts(h.gen, h.start) == h.start
    && l[|l| - 1] == RecordOf(src, h)
    && (forall e :: e in l && e.Kept? && e.gen == h.gen ==> e.start <= h.start)
  }

  /** The group last committed ends the ledger, and no checkpoint is behind it. */
  ghost predicate HoldOk(src: Source, w: World)
    requires w.base != [] && w.memory.ledger != [] && w.disk.ledger != []
  {
    !w.hold.Free? ==>
      && Ends(src, w.base, w.hold.id)
      && GenOf(w.memory.ledger) == GenOf(w.disk.ledger) == w.hold.id.gen
      && OffsetOf(w.memory.ledger) >= w.hold.id.end && OffsetOf(w.disk.ledger) >= w.hold.id.end
  }

  ghost predicate DeliveredOk(src: Source, w: World) {
    && (forall id :: id in w.remote && id.stream == src.stream ==> Mark(id) in w.base)
    && (forall id :: id in w.acked ==> id in w.remote)
    && (forall id :: id in w.acked && id.stream == src.stream && id !in w.twice ==> !Holds(w.queue, id))
    && (forall id :: id in w.twice ==> id.stream == src.stream && Mark(id) in w.base)
    && (w.worker.Holding? ==>
          && w.worker.n < w.queue.next
          && (w.worker.n in w.queue.recs ==> w.queue.recs[w.worker.n].id == w.worker.id)
          && (w.worker.id.stream == src.stream ==>
                Mark(w.worker.id) in w.base && (w.worker.id !in w.acked || w.worker.id in w.twice))
          && (w.worker.accepted ==> w.worker.id in w.remote))
  }

  ghost predicate Inv(src: Source, w: World) {
    && Regular(src)
    && Sound(w.queue)
    && LedgersOk(src, w)
    && AllSourced(src, w)
    && NothingLost(src, w)
    && ReadyCovered(src, w)
    && NamesOk(src, w)
    && HoldOk(src, w)
    && DeliveredOk(src, w)
  }

  // ---------- every step keeps them ----------

  lemma LiveUnkept(src: Source, w: World, id: Id)
    requires Regular(src) && Tiled(w.base) && Live(src, w, id)
    ensures Mark(id) !in w.base
  {
    TiledBehind(w.base);
  }

  /** A new record in the queue: what was queued stays, and what is ready was ready. */
  lemma EnqueueInv(src: Source, w: World, id: Id, payload: string, v: World)
    requires Inv(src, w) && !Holds(w.queue, id)
    requires v == w.(queue := LogQueue.Admit(w.queue, id, payload), hold := v.hold, twice := v.twice)
    requires v.hold == w.hold || v.hold.Free?
    requires id.stream == src.stream ==> !src.refuses(id) && id.start < id.end && src.starts(id.gen, id.start) == id.start
    requires w.twice <= v.twice <= w.twice + {id}
    requires id in v.twice ==> id.stream == src.stream && Mark(id) in w.base
    requires id.stream == src.stream && Mark(id) in w.base ==> id in v.twice
    ensures Inv(src, v)
  {
    EnqueueHolds(w, id, payload, v);
    forall x | x in v.acked && x.stream == src.stream && x !in v.twice
      ensures !Holds(v.queue, x)
    {
      assert Mark(x) in w.base;
    }
    assert NothingLost(src, v);
    EnqueueRecords(src, w, id, payload, v);
  }

  lemma EnqueueHolds(w: World, id: Id, payload: string, v: World)
    requires v.queue == LogQueue.Admit(w.queue, id, payload) && Sound(w.queue)
    ensures forall x :: Holds(v.queue, x) <==> Holds(w.queue, x) || x == id
  {
    forall x | Holds(w.queue, x)
      ensures Holds(v.queue, x)
    {
      var n :| n in w.queue.recs && w.queue.recs[n].id == x;
      assert v.queue.recs[n].id == x;
    }
    assert v.queue.recs[w.queue.next].id == id;
  }

  lemma EnqueueRecords(src: Source, w: World, id: Id, payload: string, v: World)
    requires Inv(src, w) && !Holds(w.queue, id)
    requires v == w.(queue := LogQueue.Admit(w.queue, id, payload), hold := v.hold, twice := v.twice)
    requires id.stream == src.stream ==> !src.refuses(id) && id.start < id.end && src.starts(id.gen, id.start) == id.start
    ensures Sound(v.queue) && ReadyCovered(src, v) && NamesOk(src, v)
  {
  }

  lemma AdmitInv(src: Source, w: World, id: Id, payload: string)
    requires Inv(src, w) && Enabled(src, w, Admit(id, payload))
    ensures Inv(src, Apply(src, w, Admit(id, payload)))
  {
    if id.stream == src.stream { LiveUnkept(src, w, id); }
    if !Holds(w.queue, id) {
      EnqueueInv(src, w, id, payload, Apply(src, w, Admit(id, payload)));
    }
  }

  lemma ReofferInv(src: Source, w: World, end: nat, payload: string)
    requires Inv(src, w) && Enabled(src, w, Reoffer(end, payload))
    ensures Inv(src, Apply(src, w, Reoffer(end, payload)))
  {
    var id := Grown(w.hold.id, end);
    GrownUnkept(src, w, end);
    if !Holds(w.queue, id) {
      EnqueueInv(src, w, id, payload, Apply(src, w, Reoffer(end, payload)));
    }
  }

  /** What is stuck is committed; what it has grown to is not. */
  lemma GrownUnkept(src: Source, w: World, end: nat)
    requires Inv(src, w) && w.hold.Stuck? && Joins(src, w.hold.id, end)
    ensures end >= w.hold.id.end
    ensures !src.refuses(Grown(w.hold.id, end)) ==> (Mark(Grown(w.hold.id, end)) in w.base <==> end == w.hold.id.end)
  {
    TiledBehind(w.base);
    assert w.base[|w.base| - 1] in w.base;
  }

  lemma GapTiled(src: Source, l: Ledger, to: nat)
    requires Tiled(l) && Sourced(src, l) && to <= StartOf(src, l)
    ensures var m := l + Gap(GenOf(l), OffsetOf(l), to);
            Tiled(m) && Sourced(src, m) && GenOf(m) == GenOf(l) && OffsetOf(m) == if OffsetOf(l) < to then to else OffsetOf(l)
    ensures forall e :: e in Gap(GenOf(l), OffsetOf(l), to) ==> e.Rejected?
  {
    if OffsetOf(l) < to {
      TiledAppend(l, Rejected(GenOf(l), OffsetOf(l), to));
    } else {
      assert l + [] == l;
    }
  }

  lemma RecordTiled(src: Source, l: Ledger, id: Id)
    requires Tiled(l) && Sourced(src, l) && id.gen == GenOf(l) && id.start < id.end && id.stream == src.stream
    requires Follows(l + [RecordOf(src, id)], |l|)
    ensures var m := l + [RecordOf(src, id)]; Tiled(m) && Sourced(src, m) && GenOf(m) == id.gen && OffsetOf(m) == id.end
  {
    TiledAppend(l, RecordOf(src, id));
  }

  /** The ledger after an advance is tiled, says why, and keeps at most the record the advance names. */
  ghost predicate Advanced(src: Source, w: World, v: Advance)
    requires w.base != []
  {
    var m := Moves(src, w, v);
    var l := w.base + m;
    && Tiled(l) && Sourced(src, l) && GenOf(l) == GenOf(w.base) && OffsetOf(l) >= OffsetOf(w.base)
    && (forall e :: e in m && e.Kept? ==> Named(w, v).Some? && e == Mark(Named(w, v).value) && !src.refuses(Named(w, v).value))
    && (Named(w, v).Some? ==>
          && RecordOf(src, Named(w, v).value) == l[|l| - 1]
          && Named(w, v).value.stream == src.stream && Named(w, v).value.gen == GenOf(l)
          && src.starts(GenOf(l), Named(w, v).value.start) == Named(w, v).value.start
          && Named(w, v).value.start < Named(w, v).value.end)
  }

  lemma TakeAdvanced(src: Source, w: World, id: Id)
    requires Inv(src, w) && Live(src, w, id)
    ensures Advanced(src, w, Take(id))
  {
    GapTiled(src, w.base, id.start);
    var l := w.base + Gap(GenOf(w.base), OffsetOf(w.base), id.start);
    RecordTiled(src, l, id);
    assert w.base + Moves(src, w, Take(id)) == l + [RecordOf(src, id)];
  }

  lemma AgainAdvanced(src: Source, w: World, end: nat)
    requires Inv(src, w) && w.hold.Stuck? && Joins(src, w.hold.id, end)
    ensures Advanced(src, w, Again(end))
  {
    var id := Grown(w.hold.id, end);
    var g, o := GenOf(w.base), OffsetOf(w.base);
    var gap := if end > o then Gap(g, o, src.starts(g, o)) else [];
    var l := w.base + gap;
    if end > o { GapTiled(src, w.base, src.starts(g, o)); } else { assert l == w.base; }
    AgainTiled(src, w.base, gap, id);
    assert l + [RecordOf(src, id)] == w.base + Moves(src, w, Again(end));
  }

  lemma AgainTiled(src: Source, l: Ledger, gap: Ledger, id: Id)
    requires l != [] && IsRecord(l[|l| - 1]) && l[|l| - 1].start == id.start
    requires gap == [] || (|gap| == 1 && gap[0].Rejected?)
    requires Tiled(l + gap) && Sourced(src, l + gap) && GenOf(l + gap) == id.gen && id.start < OffsetOf(l + gap) <= id.end
    requires id.stream == src.stream
    ensures var m := l + gap + [RecordOf(src, id)]; Tiled(m) && Sourced(src, m) && GenOf(m) == id.gen && OffsetOf(m) == id.end
  {
    var m := l + gap + [RecordOf(src, id)];
    assert m[|l| - 1] == l[|l| - 1];
    assert Regrown(m, |l + gap|);
    RecordTiled(src, l + gap, id);
  }

  lemma OverrunAdvanced(src: Source, w: World, s: nat, e: nat, to: nat)
    requires Inv(src, w) && CanAdvance(src, w, Overrun(s, e, to))
    ensures Advanced(src, w, Overrun(s, e, to))
  {
    var g, o := GenOf(w.base), OffsetOf(w.base);
    if s < e {
      PassedTiled(src, w.base, s, e);
      var l := w.base + Gap(g, o, s) + [Passed(g, s, e)];
      GapTiled(src, l, to);
      assert w.base + Moves(src, w, Overrun(s, e, to)) == l + Gap(g, e, to);
    } else {
      GapTiled(src, w.base, to);
      assert Moves(src, w, Overrun(s, e, to)) == Gap(g, e, to);
    }
  }

  lemma PassedTiled(src: Source, l: Ledger, s: nat, e: nat)
    requires Regular(src) && Tiled(l) && Sourced(src, l) && s == StartOf(src, l) && s < e
    ensures var m := l + Gap(GenOf(l), OffsetOf(l), s) + [Passed(GenOf(l), s, e)];
            Tiled(m) && Sourced(src, m) && GenOf(m) == GenOf(l) && OffsetOf(m) == e
  {
    GapTiled(src, l, s);
    TiledAppend(l + Gap(GenOf(l), OffsetOf(l), s), Passed(GenOf(l), s, e));
  }

  lemma MovesTiled(src: Source, w: World, v: Advance)
    requires Inv(src, w) && CanAdvance(src, w, v)
    ensures Advanced(src, w, v)
  {
    match v
    case Skip(to) => GapTiled(src, w.base, to);
    case Take(id) => TakeAdvanced(src, w, id);
    case Overrun(s, e, to) => OverrunAdvanced(src, w, s, e, to);
    case Again(end) => AgainAdvanced(src, w, end);
    case Restate => assert w.base + [] == w.base;
  }

  lemma SaveLedgers(src: Source, w: World, v: Advance, durable: bool, saved: bool)
    requires Inv(src, w) && Enabled(src, w, Save(v, durable, saved)) && Advanced(src, w, v)
    ensures var x := Apply(src, w, Save(v, durable, saved));
            LedgersOk(src, x) && AllSourced(src, x) && NothingLost(src, x) && NamesOk(src, x)
  {
    var x := Apply(src, w, Save(v, durable, saved));
    var m := Moves(src, w, v);
    assert forall e :: e in w.base + m <==> e in w.base || e in m;
    if durable {
      forall e | e in x.disk.ledger && e.Kept?
        ensures Accounted(x, IdOf(src, e))
      {
        if e in w.base {
          assert Accounted(w, IdOf(src, e));
        } else {
          assert IdOf(src, e) == Named(w, v).value;
        }
      }
    }
  }

  /** A record just taken, or taken again, ends the ledger. */
  lemma NamedEnds(src: Source, w: World, v: Advance)
    requires Inv(src, w) && CanAdvance(src, w, v) && Advanced(src, w, v) && Named(w, v).Some?
    ensures Ends(src, w.base + Moves(src, w, v), Named(w, v).value)
  {
    TiledBehind(w.base);
    var m := Moves(src, w, v);
    var id := Named(w, v).value;
    assert forall e :: e in w.base + m <==> e in w.base || e in m;
    assert v.Again? ==> Ends(src, w.base, w.hold.id) && id.start == w.hold.id.start;
  }

  lemma SaveHold(src: Source, w: World, v: Advance, durable: bool, saved: bool)
    requires Inv(src, w) && Enabled(src, w, Save(v, durable, saved)) && Advanced(src, w, v)
    ensures HoldOk(src, Apply(src, w, Save(v, durable, saved)))
  {
    var x := Apply(src, w, Save(v, durable, saved));
    if saved && Named(w, v).Some? {
      NamedEnds(src, w, v);
      assert x.hold == Done(Named(w, v).value);
    } else {
      SaveHoldSame(src, w, v, durable, saved);
    }
  }

  lemma SaveHoldSame(src: Source, w: World, v: Advance, durable: bool, saved: bool)
    requires Inv(src, w) && Enabled(src, w, Save(v, durable, saved)) && Advanced(src, w, v)
    requires !(saved && Named(w, v).Some?)
    ensures HoldOk(src, Apply(src, w, Save(v, durable, saved)))
  {
    var x := Apply(src, w, Save(v, durable, saved));
    if !x.hold.Free? {
      assert x.hold == w.hold && x.base == w.base;
    }
  }

  lemma SaveInv(src: Source, w: World, v: Advance, durable: bool, saved: bool)
    requires Inv(src, w) && Enabled(src, w, Save(v, durable, saved))
    ensures Inv(src, Apply(src, w, Save(v, durable, saved)))
  {
    MovesTiled(src, w, v);
    SaveLedgers(src, w, v, durable, saved);
    SaveHold(src, w, v, durable, saved);
    var x := Apply(src, w, Save(v, durable, saved));
    assert forall e :: e in w.base ==> e in x.base;
    assert DeliveredOk(src, x);
  }

  lemma QueueInv(src: Source, w: World, v: World, gone: Option<Id>)
    requires Inv(src, w)
    requires v.base == w.base && v.disk == w.disk && v.memory == w.memory && v.remote == w.remote && v.hold == w.hold
    requires w.acked <= v.acked && w.rotten <= v.rotten
    requires Sound(v.queue) && v.queue.next == w.queue.next
    requires forall n :: n in v.queue.recs ==> n in w.queue.recs && v.queue.recs[n].id == w.queue.recs[n].id
    requires forall n :: n in w.queue.recs && n !in v.queue.recs ==> gone == Some(w.queue.recs[n].id)
    requires gone.Some? ==> gone.value in v.acked || gone.value in v.rotten
    ensures NothingLost(src, v) && LedgersOk(src, v) && NamesOk(src, v) && HoldOk(src, v) && AllSourced(src, v)
  {
    forall e | e in v.disk.ledger && e.Kept?
      ensures Accounted(v, IdOf(src, e))
    {
      var id := IdOf(src, e);
      assert Accounted(w, id);
      if n :| n in w.queue.recs && w.queue.recs[n].id == id {
        assert n in v.queue.recs ==> v.queue.recs[n].id == id;
      }
    }
    assert forall n :: Mine(src, v.queue, n) ==> Mine(src, w.queue, n);
  }

  lemma ActivateCovered(src: Source, w: World, id: Id)
    requires Inv(src, w) && Enabled(src, w, Action.Activate(id))
    ensures ReadyCovered(src, w.(queue := LogQueue.Activate(w.queue, id)))
  {
    var v := w.(queue := LogQueue.Activate(w.queue, id));
    forall n | Mine(src, v.queue, n) && v.queue.recs[n].ready
      ensures Mark(v.queue.recs[n].id) in v.base
    {
      assert Mine(src, w.queue, n);
    }
  }

  lemma ActivateInv(src: Source, w: World, id: Id)
    requires Inv(src, w) && Enabled(src, w, Action.Activate(id))
    ensures Inv(src, Apply(src, w, Action.Activate(id)))
  {
    var v := w.(queue := LogQueue.Activate(w.queue, id));
    assert v == Apply(src, w, Action.Activate(id));
    QueueInv(src, w, v, None);
    ActivateCovered(src, w, id);
    assert forall x :: Holds(v.queue, x) ==> Holds(w.queue, x);
  }

  lemma AckInv(src: Source, w: World)
    requires Inv(src, w) && Enabled(src, w, Ack)
    ensures Inv(src, Apply(src, w, Ack))
  {
    var v := Apply(src, w, Ack);
    QueueInv(src, w, v, Some(w.worker.id));
    assert forall n :: Mine(src, v.queue, n) ==> Mine(src, w.queue, n);
    assert forall x :: Holds(v.queue, x) ==> Holds(w.queue, x);
  }

  lemma RotInv(src: Source, w: World, n: nat)
    requires Inv(src, w) && Enabled(src, w, Rot(n))
    ensures Inv(src, Apply(src, w, Rot(n)))
  {
    var v := Apply(src, w, Rot(n));
    QueueInv(src, w, v, Some(w.queue.recs[n].id));
    assert forall m :: Mine(src, v.queue, m) ==> Mine(src, w.queue, m);
    assert forall x :: Holds(v.queue, x) ==> Holds(w.queue, x);
  }

  lemma NoteInv(src: Source, w: World, g: nat, o: nat, forget: bool)
    requires Inv(src, w) && Enabled(src, w, Note(g, o, forget))
    ensures Inv(src, Apply(src, w, Note(g, o, forget)))
  {
    var v := Apply(src, w, Note(g, o, forget));
    assert forall e :: e in v.base <==> e in w.base || e == Begin(g, o);
    TiledAppend(w.base, Begin(g, o));
  }

  lemma PeekInv(src: Source, w: World, n: nat)
    requires Inv(src, w) && Enabled(src, w, Peek(n))
    ensures Inv(src, Apply(src, w, Peek(n)))
  {
    assert Mine(src, w.queue, n) <==> w.queue.recs[n].id.stream == src.stream;
    assert Holds(w.queue, w.queue.recs[n].id);
  }

  lemma SendInv(src: Source, w: World, accepted: bool)
    requires Inv(src, w) && Enabled(src, w, Send(accepted))
    ensures Inv(src, Apply(src, w, Send(accepted)))
  {
  }

  lemma ReturnInv(src: Source, w: World, a: Action)
    requires Inv(src, w) && Enabled(src, w, a) && (a.Resave? || a.Reopen? || a.Restart?)
    ensures Inv(src, Apply(src, w, a))
  {
  }

  lemma ReserveInv(src: Source, w: World)
    requires Inv(src, w)
    ensures Inv(src, w.(queue := LogQueue.Reserve(w.queue)))
  {
    var v := w.(queue := LogQueue.Reserve(w.queue));
    assert forall n :: Mine(src, v.queue, n) <==> Mine(src, w.queue, n);
    assert forall x :: Holds(v.queue, x) <==> Holds(w.queue, x);
  }

  lemma HoldInv(src: Source, w: World, a: Action)
    requires Inv(src, w) && Enabled(src, w, a) && (a.Stick? || a.Release?)
    ensures Inv(src, Apply(src, w, a))
  {
  }

  /** Every step of any run keeps the invariant. */
  lemma StepInv(src: Source, w: World, a: Action)
    requires Inv(src, w) && Enabled(src, w, a)
    ensures Inv(src, Apply(src, w, a))
  {
    match a
    case Reserve => ReserveInv(src, w);
    case Admit(id, payload) => AdmitInv(src, w, id, payload);
    case Save(v, durable, saved) => SaveInv(src, w, v, durable, saved);
    case Stick => HoldInv(src, w, a);
    case Reoffer(end, payload) => ReofferInv(src, w, end, payload);
    case Note(g, o, forget) => NoteInv(src, w, g, o, forget);
    case Resave => ReturnInv(src, w, a);
    case Reopen => ReturnInv(src, w, a);
    case Activate(id) => ActivateInv(src, w, id);
    case Peek(n) => PeekInv(src, w, n);
    case Send(accepted) => SendInv(src, w, accepted);
    case Ack => AckInv(src, w);
    case Release => HoldInv(src, w, a);
    case Rot(n) => RotInv(src, w, n);
    case Restart => ReturnInv(src, w, a);
  }

  // ---------- what is said ----------

  /** What is queued, sent and ingested of the stream is what its bytes say. */
  ghost predicate Worded(src: Source, w: World) {
    && (forall n :: Mine(src, w.queue, n) ==> w.queue.recs[n].payload == src.text(w.queue.recs[n].id))
    && (w.worker.Holding? && w.worker.id.stream == src.stream ==> w.worker.payload == src.text(w.worker.id))
    && |w.heard| == |w.remote|
    && (forall k :: 0 <= k < |w.remote| && w.remote[k].stream == src.stream ==> w.heard[k] == src.text(w.remote[k]))
  }

  lemma StepWorded(src: Source, w: World, a: Action)
    requires Worded(src, w) && Enabled(src, w, a)
    ensures Worded(src, Apply(src, w, a))
  {
    var x := Apply(src, w, a);
    forall n | Mine(src, x.queue, n)
      ensures x.queue.recs[n].payload == src.text(x.queue.recs[n].id)
    {
      assert n in w.queue.recs && w.queue.recs[n].id == x.queue.recs[n].id ==> Mine(src, w.queue, n);
    }
    if a.Peek? { assert Mine(src, w.queue, a.n) <==> w.queue.recs[a.n].id.stream == src.stream; }
  }
}
