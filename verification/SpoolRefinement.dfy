/**
The logs spool on disk carries out the hand-off: what an operation of the spool, cut
anywhere, leaves of the directory is one step of the hand-off, or none.
*/
module SpoolRefinement {
  import opened Storage
  import opened LogQueue
  import opened LogSpool
  import opened LogRecovery
  import opened LogRuns
  import opened Handoff

  /** A record of the stream, while the reader holds a group that is stuck, is that group. */
  predicate Reoffered(src: Source, w: World, id: Id) { w.hold.Stuck? && id.stream == src.stream }

  /** The reader and the worker call the spool only when the hand-off lets them. */
  ghost predicate Permitted(src: Source, w: World, e: LogRuns.Event) {
    w.base != [] &&
    match e
    case Putting(r) =>
      && !Holds(w.queue, r.id)
      && if Reoffered(src, w, r.id) then Enabled(src, w, Action.Reoffer(r.id.end, r.payload)) && Grown(w.hold.id, r.id.end) == r.id
         else Enabled(src, w, Action.Admit(r.id, r.payload))
    case Activating(n) => n in w.queue.recs && Enabled(src, w, Action.Activate(w.queue.recs[n].id))
    case Acking(n) => w.worker.Holding? && w.worker.n == n && Enabled(src, w, Action.Ack)
    case _ => true
  }

  /** The step of the hand-off that an event turned out to be. */
  ghost function ActionOf(src: Source, w: World, e: LogRuns.Event, r: Queue): Action {
    match e
    case Putting(rec) =>
      if r == LogQueue.Reserve(w.queue) then Action.Reserve
      else if Reoffered(src, w, rec.id) then Action.Reoffer(rec.id.end, rec.payload)
      else Action.Admit(rec.id, rec.payload)
    case Activating(n) => if n in w.queue.recs then Action.Activate(w.queue.recs[n].id) else Release
    case Acking(n) => Action.Ack
    case Rotting(n) => Rot(n)
    case _ => Release
  }

  lemma WithoutAbsent(q: Queue)
    ensures forall n: nat :: n !in q.recs ==> Without(q, n) == q
  {
    assert forall n: nat :: n !in q.recs ==> q.recs - {n} == q.recs;
  }

  /** An atomic change of the queue is what a step of the hand-off does to it. */
  lemma AtomicRefines(src: Source, w: World, e: LogRuns.Event, r: Queue)
    requires Permitted(src, w, e) && Atomic(w.queue, e, r) && r != w.queue
    ensures Enabled(src, w, ActionOf(src, w, e, r)) && Apply(src, w, ActionOf(src, w, e, r)).queue == r
  {
    match e
    case Rotting(n) =>
      WithoutAbsent(w.queue);
    case _ =>
  }

  /**
  Along any run of the spool, from any hand-off whose queue the image denotes, a
  permitted event leaves an image that denotes the queue of the same hand-off, or of
  the one a single step leads to.
  */
  lemma SpoolRefinesHandoff(c: Limits, images: seq<LogImage>, events: seq<LogRuns.Event>, k: nat, src: Source, w: World)
    requires Chain(c, images, events) && k < |events|
    requires w.queue == Logical(images[k]) && Permitted(src, w, events[k])
    ensures var r := Logical(images[k + 1]);
            r == w.queue
            || (Enabled(src, w, ActionOf(src, w, events[k], r)) && Apply(src, w, ActionOf(src, w, events[k], r)).queue == r)
  {
    RunSafe(c, images, events, k);
    if Logical(images[k + 1]) != w.queue {
      AtomicRefines(src, w, events[k], Logical(images[k + 1]));
    }
  }
}
