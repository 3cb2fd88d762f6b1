/**
The logs queue as its users see it: numbered records, each admitted unready, made
ready once its checkpoint is durable, and removed after remote acceptance.
*/
module LogQueue {

  /** Where a record comes from: one file of one source, or the journal. */
  datatype Stream = FileStream(source: string, identity: string) | Journal

  /**
  An admission identity.  The agent hashes these members; the hash is taken to be
  injective.  A journal cursor names one entry and is written as its rank.
  */
  datatype Id = Id(stream: Stream, gen: nat, start: nat, end: nat)

  datatype LogRecord = LogRecord(id: Id, ready: bool, payload: string)

  datatype Queue = Queue(next: nat, recs: map<nat, LogRecord>)

  /** Record sequences are unsigned 64-bit numbers. */
  const SEQ_LIMIT: nat := 0x1_0000_0000_0000_0000

  ghost predicate Holds(q: Queue, id: Id) {
    exists n :: n in q.recs && q.recs[n].id == id
  }

  /** Each identity is queued once, under a number already given out. */
  ghost predicate Sound(q: Queue) {
    && 1 <= q.next
    && (forall n :: n in q.recs ==> 1 <= n < q.next)
    && (forall m, n :: m in q.recs && n in q.recs && q.recs[m].id == q.recs[n].id ==> m == n)
  }

  function Reserve(q: Queue): Queue {
    q.(next := q.next + 1)
  }

  function Admit(q: Queue, id: Id, payload: string): Queue {
    Queue(q.next + 1, q.recs[q.next := LogRecord(id, false, payload)])
  }

  function Activate(q: Queue, id: Id): Queue {
    q.(recs := map n | n in q.recs :: if q.recs[n].id == id then q.recs[n].(ready := true) else q.recs[n])
  }

  function Without(q: Queue, n: nat): Queue {
    q.(recs := q.recs - {n})
  }

  /** n is the oldest ready record. */
  ghost predicate IsHead(q: Queue, n: nat) {
    n in q.recs && q.recs[n].ready && forall m :: m in q.recs && q.recs[m].ready ==> n <= m
  }

  /** Activating an identity changes its own record only, and only once. */
  lemma ActivateNumber(q: Queue, id: Id, n: nat)
    requires Sound(q) && n in q.recs && q.recs[n].id == id
    ensures Activate(q, id) == q.(recs := q.recs[n := q.recs[n].(ready := true)])
    ensures Activate(Activate(q, id), id) == Activate(q, id)
  {
  }

  /** The head stays where it is exactly when the activated record is not older. */
  lemma HeadAfterActivate(q: Queue, id: Id, head: nat)
    requires Sound(q) && IsHead(q, head)
    ensures IsHead(Activate(q, id), head)
            <==> forall n :: n in q.recs && q.recs[n].id == id ==> head <= n
  {
    var r := Activate(q, id).recs;
    assert r.Keys == q.recs.Keys;
    if n :| n in q.recs && q.recs[n].id == id && n < head {
      assert r[n].ready;
    }
  }

  /** A queue whose head moves between a peek and its acknowledgement. */
  lemma HeadMoves()
    ensures exists q: Queue, id: Id, head: nat ::
              Sound(q) && Holds(q, id) && IsHead(q, head) && !IsHead(Activate(q, id), head)
  {
    var a, b := Id(Journal, 0, 0, 1), Id(FileStream("s", "f"), 0, 0, 1);
    var q := Queue(3, map[1 := LogRecord(a, false, ""), 2 := LogRecord(b, true, "")]);
    assert q.recs[1].id == a;
    HeadAfterActivate(q, a, 2);
    assert Sound(q) && Holds(q, a) && IsHead(q, 2) && !IsHead(Activate(q, a), 2);
  }
}
