/**
Metrics delivery by record numbers: scraped batches are spooled, and one worker sends the
front of the spool until the remote accepts it.  MetricDeliveryRuns shows that what the
spool's directory goes through is a run of this machine.
*/
module MetricDelivery {
  import opened Keys
  import opened Storage
  import S = Sender

  datatype Held = Held(n: nat, accepted: bool)

  /** The spool by record numbers, the worker, and everything the remote ingested. */
  datatype State = State(
    next: nat,
    live: set<nat>,
    rotten: set<nat>,       // live records that no longer decode
    aside: set<nat>,        // quarantined
    acked: set<nat>,
    given: set<nat>,        // numbers returned to the scraper
    held: Option<Held>,
    remote: seq<nat>)

  datatype Action =
    | Put(returned: bool)
    | Skip
    | Rot(n: nat)
    | Aside(n: nat)
    | Peek(n: nat)
    | Send(ingested: bool, accepted: bool)
    | Ack
    | Release
    | Reopen(moved: set<nat>)

  ghost predicate IsFront(s: State, n: nat) {
    n in s.live && forall m :: m in s.live ==> n <= m
  }

  ghost predicate Enabled(s: State, a: Action) {
    match a
    case Put(_) => true
    case Skip => true
    case Rot(n) => n in s.live
    case Aside(n) => s.held.None? && IsFront(s, n) && n in s.rotten
    case Peek(n) => s.held.None? && IsFront(s, n) && n !in s.rotten
    case Send(ingested, accepted) => s.held.Some? && (accepted ==> ingested)
    case Ack => s.held.Some? && s.held.value.accepted && IsFront(s, s.held.value.n)
    case Release => true
    case Reopen(moved) => moved <= s.rotten
  }

  /** A reopening keeps rotten records aside: all of them, unless it is cut. */
  ghost function Apply(s: State, a: Action): State
    requires Enabled(s, a)
  {
    match a
    case Put(returned) =>
      s.(next := s.next + 1, live := s.live + {s.next}, given := if returned then s.given + {s.next} else s.given)
    case Skip => s.(next := s.next + 1)
    case Rot(n) => s.(rotten := s.rotten + {n})
    case Aside(n) => s.(live := s.live - {n}, rotten := s.rotten - {n}, aside := s.aside + {n})
    case Peek(n) => s.(held := Some(Held(n, false)))
    case Send(ingested, accepted) =>
      s.(held := Some(s.held.value.(accepted := accepted)),
         remote := if ingested then s.remote + [s.held.value.n] else s.remote)
    case Ack =>
      var n := s.held.value.n;
      s.(live := s.live - {n}, rotten := s.rotten - {n}, acked := s.acked + {n}, held := None)
    case Release => s.(held := None)
    case Reopen(moved) => s.(live := s.live - moved, aside := s.aside + moved, rotten := s.rotten - moved, held := None)
  }

  /** A spool as found, with a backlog. */
  ghost predicate Begins(s: State) {
    && s.acked == s.given == {} && s.held.None? && s.remote == []
    && s.rotten <= s.live && s.live !! s.aside
    && forall n :: n in s.live || n in s.aside ==> n < s.next
  }

  ghost predicate Legal(s: State, run: seq<Action>)
    decreases |run|
  {
    run == [] || (Enabled(s, run[0]) && Legal(Apply(s, run[0]), run[1..]))
  }

  ghost function Run(s: State, run: seq<Action>): State
    requires Legal(s, run)
    decreases |run|
  {
    if run == [] then s else Run(Apply(s, run[0]), run[1..])
  }

  ghost predicate NonDecreasing(r: seq<nat>) {
    forall i, j :: 0 <= i < j < |r| ==> r[i] <= r[j]
  }

  ghost predicate Inv(s: State) {
    && (forall n :: n in s.live || n in s.aside || n in s.acked || n in s.remote ==> n < s.next)
    && s.rotten <= s.live && s.live !! s.aside && s.live !! s.acked && s.aside !! s.acked
    && s.given <= s.live + s.aside + s.acked
    && (forall n :: n in s.acked ==> n in s.remote)
    && (forall r, m :: r in s.remote && m in s.live ==> r <= m)
    && (s.held.Some? ==> IsFront(s, s.held.value.n) && (s.held.value.accepted ==> s.held.value.n in s.remote))
    && NonDecreasing(s.remote)
  }

  lemma StepInv(s: State, a: Action)
    requires Inv(s) && Enabled(s, a)
    ensures Inv(Apply(s, a))
  {
    var t := Apply(s, a);
    if a.Send? && a.ingested {
      forall i, j | 0 <= i < j < |t.remote|
        ensures t.remote[i] <= t.remote[j]
      {
        assert t.remote[i] in s.remote;
      }
    }
  }

  lemma {:induction false} RunInv(s: State, run: seq<Action>)
    requires Inv(s) && Legal(s, run)
    ensures Inv(Run(s, run))
    decreases |run|
  {
    if run != [] {
      StepInv(s, run[0]);
      RunInv(Apply(s, run[0]), run[1..]);
    }
  }

  function Puts(run: seq<Action>): nat {
    if run == [] then 0 else (if run[0].Put? then 1 else 0) + Puts(run[1..])
  }

  lemma MovedBalance(live: set<nat>, moved: set<nat>, to: set<nat>)
    requires moved <= live && live !! to
    ensures |live - moved| == |live| - |moved| && |to + moved| == |to| + |moved|
  {
    assert live == (live - moved) + moved;
  }

  lemma StepBalance(s: State, a: Action)
    requires Inv(s) && Enabled(s, a)
    ensures var t := Apply(s, a);
            |t.acked| + |t.live| + |t.aside| == |s.acked| + |s.live| + |s.aside| + if a.Put? then 1 else 0
  {
    match a
    case Reopen(moved) => MovedBalance(s.live, moved, s.aside);
    case Aside(n) => MovedBalance(s.live, {n}, s.aside);
    case Ack => MovedBalance(s.live, {s.held.value.n}, s.acked);
    case _ =>
  }

  /** Recovered backlog plus Puts equals acknowledgements plus backlog plus quarantined. */
  lemma {:induction false} Balance(s: State, run: seq<Action>)
    requires Inv(s) && Legal(s, run)
    ensures var t := Run(s, run);
            |s.acked| + |s.live| + |s.aside| + Puts(run) == |t.acked| + |t.live| + |t.aside|
    decreases |run|
  {
    if run != [] {
      StepInv(s, run[0]);
      StepBalance(s, run[0]);
      Balance(Apply(s, run[0]), run[1..]);
    }
  }

  lemma {:induction false} RunAppend(s: State, run: seq<Action>, a: Action)
    requires Legal(s, run) && Enabled(Run(s, run), a)
    ensures Legal(s, run + [a]) && Run(s, run + [a]) == Apply(Run(s, run), a)
    decreases |run|
  {
    if run == [] {
      assert [a][1..] == [];
      assert run + [a] == [a];
    } else {
      RunAppend(Apply(s, run[0]), run[1..], a);
      assert (run + [a])[1..] == run[1..] + [a];
    }
  }

  // ---------- the two loops ----------

  datatype Stored = Ok | Full | Failed

  /** What a look at the front comes to: cancelled, an error, or a front that may have rotted. */
  datatype Glance = Interrupted | Unavailable | Rotten(moved: bool) | Intact

  /** What became of a front acknowledged: gone, still there, or unlinked while the directory could not be synced. */
  datatype Removal = Gone | There | Unsynced

  /** Record numbers in order, oldest first. */
  ghost predicate Lists(names: seq<nat>, live: set<nat>) {
    && (forall a, b :: 0 <= a < b < |names| ==> names[a] < names[b])
    && (forall n :: n in names <==> n in live)
  }

  lemma AppendLists(names: seq<nat>, live: set<nat>, n: nat)
    requires Lists(names, live) && forall m :: m in live ==> m < n
    ensures Lists(names + [n], live + {n})
  {
    assert forall k :: 0 <= k < |names| ==> names[k] in names;
  }

  lemma TailLists(names: seq<nat>, live: set<nat>)
    requires names != [] && Lists(names, live + {names[0]}) && names[0] !in live
    ensures Lists(names[1..], live)
  {
    forall n
      ensures n in names[1..] <==> n in live
    {
      assert names == [names[0]] + names[1..];
      if n in names[1..] {
        var k :| 0 <= k < |names[1..]| && names[1..][k] == n;
        assert names[k + 1] == n;
      }
    }
  }

  /** How many of the first batches were stored. */
  function Oks(puts: nat -> Stored, n: nat): nat {
    if n == 0 then 0 else Oks(puts, n - 1) + if puts(n - 1).Ok? then 1 else 0
  }

  ghost predicate Traced1(key: nat, first: State, run: seq<Action>, s: State) {
    Begins(first) && Legal(first, run) && s == Run(first, run)
  }

  /** s is where a run from an opened spool led. */
  ghost predicate Traced(first: State, run: seq<Action>, s: State) {
    forall k: nat {:trigger Look(RunKey, k)} :: Look(RunKey, k) ==> Traced1(k, first, run, s)
  }

  lemma TracedStep(first: State, run: seq<Action>, s: State, a: Action)
    requires Traced(first, run, s) && Enabled(s, a)
    ensures Traced(first, run + [a], Apply(s, a))
  {
    assert Look(RunKey, 0);
    RunAppend(first, run, a);
  }

  lemma TracedFacts(first: State, run: seq<Action>, s: State)
    requires Traced(first, run, s)
    ensures s.next !in s.given && (forall n :: n in s.live || n in s.aside ==> n < s.next)
    ensures s.live !! s.acked && s.live !! s.aside
    ensures s.held.Some? ==> IsFront(s, s.held.value.n) && (s.held.value.accepted ==> s.held.value.n in s.remote)
  {
    assert Look(RunKey, 0);
    RunInv(first, run);
  }

  lemma AckShape(s: State)
    requires Enabled(s, Ack) && s.rotten == {} && s.live !! s.acked
    ensures var t := Apply(s, Ack);
            && t.rotten == {} && |t.acked| == |s.acked| + 1
            && t.live + {s.held.value.n} == s.live && s.held.value.n !in t.live
  {
  }

  /** The front rots and goes aside. */
  lemma AsideShape(s: State, n: nat)
    requires IsFront(s, n) && s.held.None? && s.rotten == {}
    ensures Enabled(s, Rot(n)) && Enabled(Apply(s, Rot(n)), Aside(n))
    ensures var t := Apply(Apply(s, Rot(n)), Aside(n));
            && t == s.(live := t.live, aside := s.aside + {n})
            && t.rotten == {} && t.live + {n} == s.live && n !in t.live
  {
    assert Apply(Apply(s, Rot(n)), Aside(n)).rotten == {};
  }

  /** The accepted front is acknowledged. */
  ghost predicate Acknowledges(s: State, t: State) { Enabled(s, Ack) && t == Apply(s, Ack) && s.held.value.n in t.remote }

  class Metrics {
    var names: seq<nat>
    var next: nat
    var closed: bool          // the spool closes itself when a write fails half-way
    var accepted: nat
    var queued: nat
    var rejected: nat
    var dropped: nat
    var delivered: nat
    var retried: nat
    var failures: nat
    var paused: bool
    var blocked: bool
    ghost const first: State
    ghost var state: State
    ghost var run: seq<Action>
    ghost var behind: bool    // a record went aside, and the index could not follow

    /** The spool as opened: its backlog and its next number. */
    constructor (names: seq<nat>, next: nat, ghost first: State)
      requires Begins(first) && Lists(names, first.live) && next == first.next && first.rotten == {}
      ensures Valid() && this.first == first && state == first && !blocked && !closed && !behind && delivered == queued == 0
    {
      this.names, this.next, closed := names, next, false;
      accepted, queued, rejected, dropped, delivered, retried, failures := 0, 0, 0, 0, 0, 0, 0;
      paused, blocked := false, false;
      this.first, state, run, behind := first, first, [], false;
    }

    /** Until the spool is closed, the next number is the spool's, and so are the names unless they are behind. */
    ghost predicate Follows()
      reads this
    {
      !closed ==> next == state.next && (!behind ==> Lists(names, state.live))
    }

    /** The state is where a run led, and counters account for every batch. */
    ghost predicate Valid()
      reads this
    {
      && Traced(first, run, state) && Follows() && state.rotten == {}
      && accepted == queued + rejected && dropped == rejected
      && queued == |state.given| && delivered <= |state.acked|
    }

    ghost method Do(a: Action)
      requires Traced(first, run, state) && Enabled(state, a)
      modifies `state, `run
      ensures Traced(first, run, state) && state == Apply(old(state), a)
    {
      TracedStep(first, run, state, a);
      state := Apply(state, a);
      run := run + [a];
    }

    /** A record is stored under the next number, which is returned. */
    method Append()
      requires Traced(first, run, state) && Follows() && !closed
      modifies `state, `run, `names, `next
      ensures Traced(first, run, state) && Follows()
      ensures state == Apply(old(state), Put(true)) && names == old(names) + [old(next)] && old(next) == old(state).next
      ensures old(state).next !in old(state).given
    {
      TracedFacts(first, run, state);
      Do(Put(true));
      if !behind { AppendLists(names, old(state).live, next); }
      names, next := names + [next], next + 1;
    }

    /** A write failed half-way: the number or the whole record may be there, and the spool is closed. */
    method Break()
      requires Traced(first, run, state)
      modifies `state, `run, `closed
      ensures Traced(first, run, state) && closed
      ensures state == old(state) || state == Apply(old(state), Skip) || state == Apply(old(state), Put(false))
    {
      ghost var reserved: bool, written: bool := *, *;
      if written {
        Do(Put(false));
      } else if reserved {
        Do(Skip);
      }
      closed := true;
    }

    /** The worker and the scraper are as before: not stopped, and no failure counted. */
    twostate predicate Steady()
      reads this
    {
      blocked == old(blocked) && paused == old(paused) && failures == old(failures)
    }

    /** A failure is counted, and both loops stop for good. */
    twostate predicate Stopped()
      reads this
    {
      blocked && paused && failures == old(failures) + 1
    }

    /**
    Offer one batch; go tells whether the rest of the scrape is offered too.  A closed
    spool fails every batch; only a failure that is no cancellation stops.
    */
    method OfferOne(r: Stored, cancelled: bool) returns (go: bool)
      requires Valid()
      modifies this
      ensures Valid() && accepted == old(accepted) + 1 && delivered == old(delivered) && retried == old(retried)
      ensures go <==> (!old(closed) && !r.Failed?) || cancelled
      ensures if go then Steady() else Stopped()
      ensures queued == old(queued) + if r.Ok? && !old(closed) then 1 else 0
      ensures queued != old(queued) ==> state.given == old(state).given + {old(next)} && names == old(names) + [old(next)]
      ensures queued == old(queued) ==> state.given == old(state).given
      ensures closed ==> old(closed) || r.Failed?
      ensures old(closed) ==> state == old(state) && closed
      ensures state.live == old(state).live || state.live == old(state).live + {old(state).next}
      ensures state.remote == old(state).remote && state.acked == old(state).acked && state.held == old(state.held)
      ensures behind == old(behind)
    {
      if r == Ok && !closed {
        Keep();
        go := true;
      } else {
        go := Drop(r, cancelled);
      }
    }

    method Keep()
      requires Valid() && !closed
      modifies `state, `run, `names, `next, `accepted, `queued
      ensures Valid() && accepted == old(accepted) + 1 && queued == old(queued) + 1
      ensures state == Apply(old(state), Put(true)) && old(next) == old(state).next && names == old(names) + [old(next)]
    {
      Append();
      assert |state.given| == |old(state).given| + 1;
      accepted, queued := accepted + 1, queued + 1;
    }

    /** The batch is not stored: the spool is full, refuses it, or breaks. */
    method Drop(r: Stored, cancelled: bool) returns (go: bool)
      requires Valid() && (r == Ok ==> closed)
      modifies this
      ensures Valid() && accepted == old(accepted) + 1 && queued == old(queued) && delivered == old(delivered) && retried == old(retried)
      ensures go <==> (!old(closed) && r.Full?) || cancelled
      ensures if go then Steady() else Stopped()
      ensures state == old(state).(next := state.next, live := state.live)
      ensures state.live == old(state).live || state.live == old(state).live + {old(state).next}
      ensures closed ==> old(closed) || r.Failed?
      ensures old(closed) ==> state == old(state) && closed
      ensures behind == old(behind)
    {
      var breaks: bool := *;
      var full := !closed && r == Full;
      if !closed && !full && breaks {
        Break();
      }
      accepted, rejected, dropped := accepted + 1, rejected + 1, dropped + 1;
      go := full || cancelled;
      if !go {
        failures, paused, blocked := failures + 1, true, true;
      }
    }

    /**
    Offer the batches of one scrape in order, as the spool answers: a full spool drops
    one and goes on, a failing one stops the scrape unless it was a cancellation.
    */
    method Offer(batches: seq<string>, puts: nat -> Stored, cancelled: nat -> bool)
      requires Valid()
      modifies this
      ensures Valid() && delivered == old(delivered) && retried == old(retried)
      ensures old(state).given <= state.given && old(state).live <= state.live
      ensures 0 <= queued - old(queued) <= accepted - old(accepted) <= |batches|
      ensures var n := accepted - old(accepted);
              && (n < |batches| ==> Stopped() && n > 0 && !cancelled(n - 1) && (closed || puts(n - 1).Failed?))
              && (forall k :: 0 <= k < n - 1 && puts(k).Failed? ==> cancelled(k))
              && (n > 0 && puts(n - 1).Failed? && !cancelled(n - 1) ==> Stopped())
              && (!Stopped() ==> Steady())
              && (!closed ==> queued - old(queued) == Oks(puts, n))
      ensures old(closed) ==> queued == old(queued) && state == old(state)
      ensures state.remote == old(state).remote && state.acked == old(state).acked && state.held == old(state.held)
      ensures behind == old(behind)
    {
      var i := 0;
      while i < |batches|
        invariant 0 <= i <= |batches| && Valid() && accepted == old(accepted) + i
        invariant delivered == old(delivered) && retried == old(retried) && Steady()
        invariant old(state).given <= state.given && old(state).live <= state.live
        invariant 0 <= queued - old(queued) <= i && (!closed ==> queued - old(queued) == Oks(puts, i))
        invariant forall k :: 0 <= k < i && puts(k).Failed? ==> cancelled(k)
        invariant old(closed) ==> queued == old(queued) && state == old(state) && closed
        invariant state.remote == old(state).remote && state.acked == old(state).acked && state.held == old(state.held)
        invariant behind == old(behind)
      {
        var go := OfferOne(puts(i), cancelled(i));
        if !go { return; }
        i := i + 1;
      }
    }

    /** A scrape offers nothing once delivery is blocked. */
    method Scrape(batches: seq<string>, puts: nat -> Stored, cancelled: nat -> bool)
      requires Valid()
      modifies this
      ensures Valid() && delivered == old(delivered) && retried == old(retried)
      ensures old(blocked) ==> state == old(state) && accepted == old(accepted) && queued == old(queued) && names == old(names)
      ensures !old(blocked) && accepted - old(accepted) < |batches| ==> Stopped()
    {
      if blocked { return; }
      Offer(batches, puts, cancelled);
    }

    /** The front is gone from the directory. */
    method Forget()
      requires names != [] && Lists(names, state.live + {names[0]}) && names[0] !in state.live
      modifies `names
      ensures names == old(names)[1..] && Lists(names, state.live)
    {
      TailLists(names, state.live);
      names := names[1..];
    }

    /** The front no longer decodes: it goes aside, though the index may fail to follow. */
    method SetAside(ok: bool)
      requires Valid() && !closed && !behind && names != [] && state.held.None?
      modifies `names, `state, `run, `behind
      ensures Valid() && state.aside == old(state).aside + {old(names)[0]} && behind == !ok
      ensures names == if ok then old(names)[1..] else old(names)
      ensures state.held.None? && state.acked == old(state).acked
      ensures state.given == old(state).given && state.remote == old(state).remote
    {
      assert names[0] in names;
      TracedFacts(first, run, state);
      AsideShape(state, names[0]);
      Do(Rot(names[0]));
      Do(Aside(names[0]));
      if ok {
        Forget();
      } else {
        behind := true;
      }
    }

    /** The accepted front leaves the spool and the index. */
    method Unlink()
      requires Traced(first, run, state) && Follows() && !closed && !behind && state.rotten == {}
      requires names != [] && state.held == Some(Held(names[0], true))
      modifies `state, `run, `names
      ensures Traced(first, run, state) && Follows() && state.rotten == {} && names == old(names)[1..]
      ensures Acknowledges(old(state), state) && |state.acked| == |old(state).acked| + 1
    {
      assert names[0] in names;
      TracedFacts(first, run, state);
      AckShape(state);
      Do(Ack);
      Forget();
    }

    /** The accepted front goes, and counts as delivered. */
    method Remove()
      requires Valid() && !closed && !behind
      requires names != [] && state.held == Some(Held(names[0], true))
      modifies `state, `run, `names, `delivered
      ensures Valid() && names == old(names)[1..] && delivered == old(delivered) + 1
      ensures Acknowledges(old(state), state)
    {
      Unlink();
      delivered := delivered + 1;
    }

    /** The record is unlinked, but the directory cannot be synced: the spool is closed. */
    method HalfRemoved()
      requires Valid() && !closed && names != [] && state.held == Some(Held(names[0], true))
      modifies `state, `run, `closed
      ensures Valid() && closed
      ensures state == old(state) || Acknowledges(old(state), state)
    {
      ghost var happened: bool := *;
      TracedFacts(first, run, state);
      if happened {
        Do(Ack);
        assert |state.acked| >= |old(state).acked|;
      }
      closed := true;
    }

    /** Acknowledge what the remote accepted; an acknowledgement that fails may have happened. */
    method Acknowledge(removal: Removal)
      requires Valid() && !closed && !behind && names != [] && state.held == Some(Held(names[0], true))
      modifies this
      ensures Valid() && queued == old(queued) && retried == old(retried) && paused == old(paused)
      ensures state.given == old(state).given && !behind
      ensures removal.Gone? ==> delivered == old(delivered) + 1 && Acknowledges(old(state), state) && Steady()
      ensures removal.Gone? ==> names == old(names)[1..] && !closed
      ensures !removal.Gone? ==> names == old(names) && blocked && failures == old(failures) + 1 && delivered == old(delivered)
      ensures removal.There? ==> state == old(state) && !closed
      ensures removal.Unsynced? ==> closed && (state == old(state) || Acknowledges(old(state), state))
    {
      if removal.Gone? {
        Remove();
      } else {
        FailRemoval(removal.Unsynced?);
      }
    }

    /** Nothing was unlinked, or something may have been and the spool is closed; the worker blocks. */
    method FailRemoval(unsynced: bool)
      requires Valid() && !closed && names != [] && state.held == Some(Held(names[0], true))
      modifies `state, `run, `closed, `failures, `blocked
      ensures Valid() && blocked && failures == old(failures) + 1 && closed == unsynced
      ensures state == old(state) || (unsynced && Acknowledges(old(state), state))
    {
      if unsynced { HalfRemoved(); }
      failures, blocked := failures + 1, true;
    }

    /**
    One round of the worker: peek, send, and on acceptance acknowledge, as the spool and
    the remote answer.  Nothing but an accepted front leaves the spool.  A cancellation
    ends the worker and changes nothing; any other end stops scraping too; retries that
    are exhausted keep the front and go on.
    */
    method DeliverOne(glance: Glance, answer: S.Outcome, removal: Removal) returns (go: bool)
      requires Valid() && !behind && state.held.None?
      modifies this
      ensures Valid() && state.given == old(state).given && queued == old(queued)
      ensures state.acked == old(state).acked
              || (&& old(names) != [] && state.acked == old(state).acked + {old(names)[0]} && old(names)[0] in state.remote
                  && old(names)[0] !in old(state).acked && (delivered == old(delivered) + 1 || (closed && blocked && !go)))
      ensures go ==> state.held.None? && closed == old(closed) && !behind
      ensures old(Looking(glance)).None? || !old(Looking(glance)).value.Intact? ==>
                state.remote == old(state).remote && state.acked == old(state).acked
                && delivered == old(delivered) && retried == old(retried)
      ensures match old(Looking(glance))
              case None => go && Steady() && state == old(state) && names == old(names)
              case Some(Interrupted) => !go && Steady() && state == old(state) && names == old(names)
              case Some(Unavailable) => !go && Stopped() && state == old(state) && names == old(names)
              case Some(Rotten(moved)) =>
                && state.aside == old(state).aside + {old(names)[0]}
                && (if moved then go && Steady() && names == old(names)[1..] else !go && Stopped())
              case Some(Intact) => Settled(answer, removal, go)
    {
      go := false;
      if glance.Interrupted? {
        return;
      }
      if glance.Unavailable? || closed {
        Block();
        return;
      }
      if names == [] {
        return true;
      }
      if glance.Rotten? {
        SetAside(glance.moved);
        go := glance.moved;
        if !go { Block(); }
        return;
      }
      TracedFacts(first, run, state);
      assert names[0] in names;
      SendFront(answer);
      go := Settle(answer, removal);
    }

    /** What the worker meets: a closed spool is unavailable, and an empty one makes it wait. */
    function Looking(glance: Glance): (found: Option<Glance>)
      reads this
    {
      if glance.Interrupted? then Some(glance)
      else if glance.Unavailable? || closed then Some(Unavailable)
      else if names == [] then None
      else Some(glance)
    }

    /** What an outcome makes of the front, the counters and the two loops. */
    twostate predicate Settled(answer: S.Outcome, removal: Removal, go: bool)
      reads this
    {
      match answer
      case Accepted =>
        && go == removal.Gone? && retried == old(retried) && paused == old(paused)
        && delivered == old(delivered) + (if removal.Gone? then 1 else 0)
        && (removal.Gone? ==> Steady() && old(names) != [] && names == old(names)[1..])
        && (!removal.Gone? ==> blocked && failures == old(failures) + 1)
        && (removal.There? ==> names == old(names) && state.live == old(state).live)
      case Exhausted =>
        go && retried == old(retried) + 1 && Steady() && delivered == old(delivered) && names == old(names)
        && state.live == old(state).live && state.held.None?
      case Cancelled =>
        !go && retried == old(retried) && Steady() && delivered == old(delivered) && names == old(names)
        && state.live == old(state).live
      case _ =>
        !go && retried == old(retried) && blocked && paused && failures == old(failures) && delivered == old(delivered)
        && names == old(names) && state.live == old(state).live
    }

    /** What the outcome of sending the front means for it, and for the worker. */
    method Settle(outcome: S.Outcome, removal: Removal) returns (go: bool)
      requires Valid() && !closed && !behind && names != [] && state.held == Some(Held(names[0], outcome.Accepted?))
      modifies this
      ensures Valid() && state.given == old(state).given && queued == old(queued) && !behind
      ensures Settled(outcome, removal, go)
      ensures state.acked == old(state).acked || (Acknowledges(old(state), state) && (go || (closed && blocked)))
      ensures go && outcome.Accepted? ==> Acknowledges(old(state), state)
      ensures go ==> state.held.None? && !closed
    {
      go := false;
      match outcome {
        case Accepted =>
          Acknowledge(removal);
          go := removal.Gone?;
        case Unauthorized => paused, blocked := true, true;
        case Rejected => paused, blocked := true, true;
        case Cancelled =>
        case Exhausted =>
          Do(Release);
          retried := retried + 1;
          go := true;
      }
    }

    method Block()
      requires Valid()
      modifies `failures, `paused, `blocked
      ensures Valid() && Stopped()
    {
      failures, paused, blocked := failures + 1, true, true;
    }

    /** Send the front; the remote may ingest what it does not acknowledge. */
    method SendFront(outcome: S.Outcome)
      requires Valid() && !closed && !behind && names != [] && state.held.None?
      modifies `state, `run
      ensures Valid() && state.held == Some(Held(names[0], outcome.Accepted?))
      ensures state.acked == old(state).acked && state.given == old(state).given && state.live == old(state).live
      ensures state.remote == old(state).remote || state.remote == old(state).remote + [names[0]]
      ensures outcome.Accepted? ==> state.remote == old(state).remote + [names[0]]
    {
      assert names[0] in names;
      Do(Peek(names[0]));
      ghost var ingested: bool := *;
      Do(Send(outcome.Accepted? || ingested, outcome.Accepted?));
    }
  }
}
