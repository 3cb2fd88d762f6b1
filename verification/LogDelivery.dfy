/**
The worker that delivers logs: it peeks at the spool, sends, and acknowledges, while the
readers go on admitting and activating records between those calls.
*/
module LogDelivery {
  import opened Keys
  import opened Storage
  import opened LogQueue
  import opened LogSpool
  import opened LogDisk
  import S = Sender

  /** A call of a reader. */
  datatype Call = Offering(submission: Submission) | Activating(id: Id)

  /** The spool as an acknowledgement finds it. */
  datatype Moment = Moment(contents: Queue, names: seq<nat>, closed: bool, legible: bool, faults: nat)

  /** Readers add records and make records ready; they change and remove none. */
  ghost predicate Grows(q: Queue, r: Queue) {
    forall n :: n in q.recs ==>
      && n in r.recs && r.recs[n].id == q.recs[n].id && r.recs[n].payload == q.recs[n].payload
      && (q.recs[n].ready ==> r.recs[n].ready)
  }

  lemma GrowsOn(q: Queue, r: Queue, id: Id, payload: string)
    requires Grows(q, r) && forall n :: n in r.recs ==> n < r.next
    ensures Grows(q, Admit(r, id, payload)) && Grows(q, LogQueue.Activate(r, id))
  {
  }

  /** A head stays the head under the readers exactly while no older record becomes ready. */
  lemma HeadKeptIff(q: Queue, r: Queue, n: nat)
    requires IsHead(q, n) && Grows(q, r)
    ensures n in r.recs && r.recs[n].payload == q.recs[n].payload
    ensures IsHead(r, n) <==> forall m :: m in r.recs && r.recs[m].ready ==> n <= m
  {
  }

  class LogWorker {
    const queue: LogDisk
    var blocked: bool
    var paused: bool
    var delivered: nat
    var retried: nat
    ghost var remote: seq<string>

    constructor (queue: LogDisk)
      ensures this.queue == queue && !blocked && !paused && delivered == retried == 0 && remote == []
    {
      this.queue := queue;
      blocked, paused, delivered, retried, remote := false, false, 0, 0, [];
    }

    /** The worker's own fields are as before. */
    twostate predicate Steady()
      reads this
    {
      blocked == old(blocked) && paused == old(paused) && delivered == old(delivered) && retried == old(retried)
    }

    /** The readers use the spool for a while; a write that fails closes it. */
    method Readers(plan: seq<Call>)
      requires queue.Valid()
      modifies queue, queue.dir
      ensures |queue.dir.views| > 0 && old(queue.dir.faults) <= queue.dir.faults
      ensures !queue.closed ==> queue.Valid() && !old(queue.closed) && Grows(old(queue.Contents()), queue.Contents())
    {
      var i := 0;
      while i < |plan| && !queue.closed && queue.next + 1 < SEQ_LIMIT
        invariant 0 <= i <= |plan| && |queue.dir.views| > 0 && old(queue.dir.faults) <= queue.dir.faults
        invariant !queue.closed ==> queue.Valid() && !old(queue.closed) && Grows(old(queue.Contents()), queue.Contents())
      {
        Serve(plan[i], old(queue.Contents()));
        i := i + 1;
      }
    }

    /** One call of a reader. */
    method Serve(call: Call, ghost q: Queue)
      requires queue.Valid() && !queue.closed && queue.next + 1 < SEQ_LIMIT && Grows(q, queue.Contents())
      modifies queue, queue.dir
      ensures |queue.dir.views| > 0 && old(queue.dir.faults) <= queue.dir.faults
      ensures !queue.closed ==> queue.Valid() && Grows(q, queue.Contents())
    {
      GoodQueue(queue.limits, queue.dir.Image(), queue.Memory(), queue.owner);
      match call {
        case Offering(s) =>
          GrowsOn(q, queue.Contents(), s.id, s.normalized);
          var r := queue.PutAdmission(false, s);
        case Activating(id) =>
          GrowsOn(q, queue.Contents(), id, "");
          var e := queue.Activate(false, id);
      }
    }

    /**
    One round: peek, send, and on acceptance acknowledge.  The record sent is the head of
    the queue, and it leaves the queue exactly if it was accepted and is still the head
    when it is acknowledged, unless that call fails; an acknowledgement that is refused
    blocks delivery for good.
    */
    method DeliverOne(cancels: nat -> bool, answer: S.Outcome, partial: bool, plan: seq<Call>, cancelled: bool)
      returns (go: bool, ghost sent: Option<nat>, ghost at: Moment)
      requires queue.Valid()
      modifies this, queue, queue.dir
      ensures |queue.dir.views| > 0
      ensures sent.None? ==> Steady() && remote == old(remote)
      ensures sent.None? && go ==>
                queue.Valid() && forall n :: n in old(queue.Contents()).recs ==> !old(queue.Contents()).recs[n].ready
      ensures sent.None? && !go ==>
                queue.closed || (exists k :: cancels(k)) || queue.dir.faults > old(queue.dir.faults)
                || exists n :: n in old(queue.names) && Overlong(old(queue.dir.Image()), n)
      ensures sent.Some? ==>
                && IsHead(old(queue.Contents()), sent.value)
                && remote == old(remote) + [old(queue.Contents()).recs[sent.value].payload]
                && (!at.closed ==> Grows(old(queue.Contents()), at.contents))
      ensures sent.Some? && answer.Accepted? ==>
                && paused == old(paused) && retried == old(retried)
                && (go <==> !cancelled && !at.closed && at.names != [] && at.names[0] == sent.value && at.legible
                            && queue.dir.faults == at.faults)
                && (go ==> IsHead(at.contents, sent.value) && queue.Valid() && queue.Contents() == Without(at.contents, sent.value))
                && (go ==> blocked == old(blocked) && delivered == old(delivered) + if partial then 0 else 1)
                && (!go ==> blocked && delivered == old(delivered))
      ensures sent.Some? && !answer.Accepted? ==>
                && delivered == old(delivered) && (go <==> answer.Exhausted?)
                && retried == old(retried) + (if answer.Exhausted? then 1 else 0)
                && blocked == (old(blocked) || answer.Unauthorized? || answer.Rejected?)
                && paused == (old(paused) || answer.Unauthorized?)
                && (!queue.closed ==> Grows(old(queue.Contents()), queue.Contents()))
    {
      at := Moment(Queue(1, map[]), [], true, false, 0);
      sent := None;
      var p := queue.Next(cancels);
      if p.Waiting? {
        return true, sent, at;
      }
      if !p.Item? {
        return false, sent, at;
      }
      sent := Some(p.n);
      remote := remote + [p.payload];
      Readers(plan);
      at := Moment(queue.Contents(), queue.names, queue.closed, queue.Legible(p.n), queue.dir.faults);
      go := Settle(p.n, answer, partial, cancelled);
    }

    /** What the outcome of sending the head means for it, and for the worker. */
    method Settle(n: nat, answer: S.Outcome, partial: bool, cancelled: bool) returns (go: bool)
      requires |queue.dir.views| > 0 && (!queue.closed ==> queue.Valid())
      modifies `blocked, `paused, `delivered, `retried, queue, queue.dir
      ensures |queue.dir.views| > 0
      ensures answer.Accepted? ==>
                && paused == old(paused) && retried == old(retried)
                && (go <==> !cancelled && !old(queue.closed) && old(queue.names) != [] && old(queue.names)[0] == n
                            && old(queue.Legible(n)) && queue.dir.faults == old(queue.dir.faults))
                && (go ==> IsHead(old(queue.Contents()), n) && queue.Valid() && queue.Contents() == Without(old(queue.Contents()), n))
                && (go ==> blocked == old(blocked) && delivered == old(delivered) + if partial then 0 else 1)
                && (!go ==> blocked && delivered == old(delivered))
      ensures !answer.Accepted? ==>
                && delivered == old(delivered) && (go <==> answer.Exhausted?)
                && retried == old(retried) + (if answer.Exhausted? then 1 else 0)
                && blocked == (old(blocked) || answer.Unauthorized? || answer.Rejected?)
                && paused == (old(paused) || answer.Unauthorized?)
                && queue.closed == old(queue.closed) && queue.names == old(queue.names) && queue.dir.views == old(queue.dir.views)
    {
      go := false;
      match answer {
        case Accepted =>
          go := Acknowledge(n, cancelled);
          if !go {
            blocked := true;
          } else if !partial {
            delivered := delivered + 1;
          }
        case Unauthorized => paused, blocked := true, true;
        case Rejected => blocked := true;
        case Cancelled =>
        case Exhausted =>
          retried := retried + 1;
          go := true;
      }
    }

    /** A closed spool acknowledges nothing. */
    method Acknowledge(n: nat, cancelled: bool) returns (ok: bool)
      requires |queue.dir.views| > 0 && (!queue.closed ==> queue.Valid())
      modifies queue, queue.dir
      ensures |queue.dir.views| > 0
      ensures ok <==> (&& !cancelled && !old(queue.closed) && old(queue.names) != [] && old(queue.names)[0] == n
                       && old(queue.Legible(n)) && queue.dir.faults == old(queue.dir.faults))
      ensures ok ==> IsHead(old(queue.Contents()), n) && queue.Valid() && queue.Contents() == Without(old(queue.Contents()), n)
    {
      if queue.closed {
        return false;
      }
      HeadGood(queue.limits, queue.dir.Image(), queue.Memory(), queue.owner);
      var e := queue.Ack(cancelled, n);
      ok := e.Done?;
    }
  }
}
