/**
The capability manager: policies applied, rolled back, or left degraded, with every
constructor, start, stop and save free to fail.
*/
module Lifecycle {
  import opened Keys

  datatype Capability = Metrics | Logs | Traces | Processes | Containers | Other(name: string)

  /** Every capability there is, in the order transitions visit them. */
  const ALL: seq<Capability> := [Metrics, Logs, Traces, Processes, Containers]

  predicate Known(c: Capability) { !c.Other? }

  /** When transitions visit a capability. */
  function Position(c: Capability): (k: nat)
    requires Known(c)
    ensures k < 5 && ALL[k] == c
  {
    match c
    case Metrics => 0
    case Logs => 1
    case Traces => 2
    case Processes => 3
    case Containers => 4
  }

  datatype Document = Document(version: nat, enabled: map<Capability, bool>)

  predicate On(d: Document, c: Capability) { c in d.enabled && d.enabled[c] }

  predicate Wellformed(d: Document) { d.version != 0 && forall c :: c in d.enabled ==> Known(c) }

  predicate Equal(a: Document, b: Document) {
    a.version == b.version && forall k :: 0 <= k < |ALL| ==> (On(a, ALL[k]) <==> On(b, ALL[k]))
  }

  datatype Result =
    | Applied
    | Unchanged
    | Unavailable
    | Interrupted
    | Invalid
    | Stale
    | Unimplemented
    | Retained            // failed, and the prior policy is in force
    | NeedsAttention      // failed, rolled back, and degraded all the same
    | RollbackIncomplete

  /**
  Instances that may be running: begun and not stopped cleanly.  The table of active
  ones is part of it, and no capability has two.
  */
  ghost predicate OneEach(active: map<Capability, nat>, live: map<nat, Capability>, made: nat) {
    && (forall c :: c in active ==> active[c] in live && live[active[c]] == c)
    && (forall a, b :: a in live && b in live && live[a] == live[b] ==> a == b)
    && (forall a :: a in live ==> a < made)
    && (forall c :: c in active ==> Known(c))
  }

  /** What was active still is, as the same instance. */
  ghost predicate Keeps(before: map<Capability, nat>, after: map<Capability, nat>) {
    forall c :: c in before ==> c in after && after[c] == before[c]
  }

  ghost predicate Idle(live: map<nat, Capability>, c: Capability) {
    forall a :: a in live ==> live[a] != c
  }

  /** Instances: active ones, those that may run, the next name, failed starts, and those told to stop. */
  datatype Instances = Instances(
    active: map<Capability, nat>, live: map<nat, Capability>, made: nat, failed: set<nat>, told: set<nat>)

  ghost predicate Sound(key: nat, x: Instances, degraded: bool) {
    && OneEach(x.active, x.live, x.made) && x.failed <= x.told
    && (!degraded ==> forall a :: a in x.live ==> x.live[a] in x.active && x.active[x.live[a]] == a)
  }

  /** Nothing runs twice, what failed to start was told to stop, and unless degraded nothing else runs. */
  ghost predicate Sane(x: Instances, degraded: bool) {
    forall k: nat {:trigger Look(TableKey, k)} :: Look(TableKey, k) ==> Sound(k, x, degraded)
  }

  lemma SaneFacts(x: Instances, degraded: bool)
    requires Sane(x, degraded)
    ensures forall c :: c in x.active ==> Known(c)
    ensures forall a, b :: a in x.live && b in x.live && x.live[a] == x.live[b] ==> a == b
    ensures x.failed <= x.told && Sane(x, true)
    ensures !degraded ==> forall a :: a in x.live ==> x.live[a] in x.active && x.active[x.live[a]] == a
    ensures !degraded ==> forall c :: c !in x.active ==> Idle(x.live, c)
  {
    assert Look(TableKey, 0);
  }

  lemma StartedSane(x: Instances, degraded: bool, c: Capability)
    requires Sane(x, degraded) && Known(c) && c !in x.active && Idle(x.live, c)
    ensures Sane(x.(active := x.active[c := x.made], live := x.live[x.made := c], made := x.made + 1), degraded)
  {
    assert Look(TableKey, 0);
  }

  lemma StoppedSane(x: Instances, degraded: bool, c: Capability)
    requires Sane(x, degraded) && c in x.active
    ensures Sane(x.(told := x.told + {x.active[c]}), degraded)
    ensures Sane(x.(told := x.told + {x.active[c]}), true)
    ensures Sane(x.(active := x.active - {c}, live := x.live - {x.active[c]}, told := x.told + {x.active[c]}), degraded)
    ensures Idle(x.live - {x.active[c]}, c)
  {
    assert Look(TableKey, 0);
  }

  lemma GivenUpSane(x: Instances, degraded: bool, c: Capability)
    requires Sane(x, degraded) && c !in x.active && Idle(x.live, c)
    ensures var y := x.(made := x.made + 1, failed := x.failed + {x.made}, told := x.told + {x.made});
            Sane(y, degraded) && Sane(y.(live := x.live[x.made := c]), true)
  {
    assert Look(TableKey, 0);
  }

  class Manager {
    const registered: set<Capability>
    const stored: bool
    var active: map<Capability, nat>
    var current: Document
    var degraded: bool
    var closed: bool
    var made: nat                       // instances constructed, which also names the next one
    ghost var live: map<nat, Capability>
    ghost var failed: set<nat>
    ghost var told: set<nat>
    ghost var asked: set<Capability>    // what the last start or rollback tried to construct
    ghost var kept: Document            // the policy in the store, if there is one
    ghost var faults: nat               // constructors, starts, stops and saves that failed, and cancellations

    constructor (registered: set<Capability>, stored: bool)
      ensures Valid() && !degraded && !closed && active == map[] && current == Document(0, map[])
    {
      this.registered, this.stored := registered, stored;
      active, current, degraded, closed, made := map[], Document(0, map[]), false, false, 0;
      live, failed, told, asked, kept, faults := map[], {}, {}, {}, Document(0, map[]), 0;
    }

    ghost function All(): Instances
      reads `active, `live, `made, `failed, `told
    {
      Instances(active, live, made, failed, told)
    }

    /** What came back from the environment counts as a fault, if it is one. */
    ghost method Note(ok: bool)
      modifies `faults
      ensures faults == old(faults) + if ok then 0 else 1
    {
      faults := faults + if ok then 0 else 1;
    }

    /** The active capabilities are those of the current policy, unless degraded or closed. */
    ghost predicate Valid()
      reads this
    {
      Sane(All(), degraded) && (!degraded && !closed ==> forall c :: c in active <==> Known(c) && On(current, c))
    }

    /** Construct and start an instance; one that fails to start is told to stop. */
    method Start(c: Capability) returns (ok: bool)
      requires Sane(All(), degraded) && Known(c) && c !in active && Idle(live, c)
      modifies `active, `degraded, `made, `live, `failed, `told, `asked, `faults
      ensures Sane(All(), degraded) && (old(degraded) ==> degraded)
      ensures faults >= old(faults) && (ok <==> faults == old(faults))
      ensures ok ==> degraded == old(degraded) && active.Keys == old(active).Keys + {c}
      ensures !ok ==> active == old(active)
      ensures asked == old(asked) + {c} && made >= old(made) && old(told) <= told
      ensures Keeps(old(active), active)
      ensures forall d :: d != c && Idle(old(live), d) ==> Idle(live, d)
    {
      asked := asked + {c};
      ok := *;
      Note(ok);
      if ok { ok := Launch(c); }
    }

    /** Start an instance just constructed. */
    method Launch(c: Capability) returns (ok: bool)
      requires Sane(All(), degraded) && Known(c) && c !in active && Idle(live, c)
      modifies `active, `degraded, `made, `live, `failed, `told, `faults
      ensures Sane(All(), degraded) && (old(degraded) ==> degraded)
      ensures faults >= old(faults) && (ok <==> faults == old(faults))
      ensures made == old(made) + 1 && (!ok ==> old(made) in told) && old(told) <= told
      ensures ok ==> degraded == old(degraded) && active == old(active)[c := old(made)]
      ensures !ok ==> active == old(active)
      ensures forall d :: d != c && Idle(old(live), d) ==> Idle(live, d)
    {
      ghost var x := All();
      var id := made;
      made := made + 1;
      ok := *;
      Note(ok);
      assert All() == x.(made := id + 1);
      if ok {
        StartedSane(x, degraded, c);
        Enter(id, c);
      } else {
        GivenUpSane(x, degraded, c);
        GiveUp(id, c);
      }
    }

    /** A started instance is active. */
    method Enter(id: nat, c: Capability)
      requires Sane(All().(active := active[c := id], live := live[id := c]), degraded)
      modifies `active, `live
      ensures Sane(All(), degraded) && active == old(active)[c := id]
      ensures forall d :: d != c && Idle(old(live), d) ==> Idle(live, d)
    {
      live := live[id := c];
      active := active[c := id];
    }

    /** A failed start: the instance is told to stop, and may not. */
    method GiveUp(id: nat, ghost c: Capability)
      requires var y := All().(failed := failed + {id}, told := told + {id});
               Sane(y, degraded) && Sane(y.(live := live[id := c]), true)
      modifies `degraded, `live, `failed, `told, `faults
      ensures Sane(All(), degraded) && (old(degraded) ==> degraded) && id in failed && id in told && faults >= old(faults) && old(told) <= told
      ensures forall d :: d != c && Idle(old(live), d) ==> Idle(live, d)
    {
      failed, told := failed + {id}, told + {id};
      var stopped: bool := *;
      Note(stopped);
      if !stopped {
        live := live[id := c];
        degraded := true;
      }
    }

    /** Stop an active instance; one that does not stop cleanly stays in the table. */
    method Stop(c: Capability) returns (ok: bool)
      requires Sane(All(), degraded)
      modifies `active, `degraded, `live, `told, `faults
      ensures Sane(All(), degraded) && (old(degraded) ==> degraded)
      ensures faults >= old(faults) && (ok <==> faults == old(faults))
      ensures old(told) <= told && (c in old(active) ==> old(active)[c] in told)
      ensures ok ==> degraded == old(degraded) && active == old(active) - {c}
      ensures !ok ==> degraded && active == old(active) && c in active
      ensures Keeps(active, old(active))
      ensures forall d :: Idle(old(live), d) ==> Idle(live, d)
      ensures ok && c in old(active) ==> Idle(live, c)
    {
      if c !in active {
        assert active - {c} == active;
        return true;
      }
      StoppedSane(All(), degraded, c);
      told := told + {active[c]};
      ok := *;
      Note(ok);
      if ok {
        live := live - {active[c]};
        active := active - {c};
      } else {
        degraded := true;
      }
    }

    /** Stop what a policy does not enable, in order; halt at the first failure, or go on and tell all of it. */
    method StopOthers(d: Document, halt: bool) returns (ok: bool)
      requires Sane(All(), degraded)
      modifies `active, `degraded, `live, `told, `faults
      ensures Sane(All(), degraded) && (old(degraded) ==> degraded) && Keeps(active, old(active))
      ensures forall c :: c in old(active) && On(d, c) ==> c in active
      ensures ok ==> degraded == old(degraded) && forall c :: c in active ==> On(d, c)
      ensures old(told) <= told
      ensures ok || !halt ==> forall c :: c in old(active) && !On(d, c) ==> old(active)[c] in told
      ensures !ok ==> degraded
      ensures faults >= old(faults) && (ok <==> faults == old(faults))
      ensures forall c :: Idle(old(live), c) ==> Idle(live, c)
      ensures forall c :: c in old(active) && c !in active ==> Idle(live, c)
    {
      SaneFacts(All(), degraded);
      ok := true;
      var i := 0;
      while i < 5
        invariant 0 <= i <= 5 && Sane(All(), degraded) && (old(degraded) ==> degraded) && Keeps(active, old(active))
        invariant forall c :: c in old(active) && On(d, c) ==> c in active
        invariant ok ==> degraded == old(degraded) && forall c :: c in active && Known(c) && Position(c) < i ==> On(d, c)
        invariant old(told) <= told && forall c :: c in old(active) && Known(c) && Position(c) >= i ==> c in active
        invariant forall c :: c in old(active) && Known(c) && Position(c) < i && !On(d, c) ==> old(active)[c] in told
        invariant !ok ==> degraded
        invariant faults >= old(faults) && (ok <==> faults == old(faults))
        invariant forall c :: Idle(old(live), c) ==> Idle(live, c)
        invariant forall c :: c in old(active) && c !in active ==> Idle(live, c)
      {
        assert Known(ALL[i]) && Position(ALL[i]) == i;
        if !On(d, ALL[i]) {
          var stopped := Stop(ALL[i]);
          if !stopped {
            ok := false;
            if halt { return; }
          }
        }
        i := i + 1;
      }
    }

    /** Start what a policy enables and is not active, in order; halt at the first failure, or go on and try all of it. */
    method StartMissing(d: Document, halt: bool) returns (ok: bool)
      requires Sane(All(), degraded) && forall c :: Known(c) && On(d, c) && c !in active ==> Idle(live, c)
      modifies `active, `degraded, `made, `live, `failed, `told, `asked, `faults
      ensures Sane(All(), degraded) && (old(degraded) ==> degraded) && Keeps(old(active), active)
      ensures forall c :: c in active && c !in old(active) ==> On(d, c)
      ensures faults >= old(faults) && (ok <==> faults == old(faults))
      ensures ok ==> degraded == old(degraded) && forall c :: Known(c) && On(d, c) ==> c in active
      ensures old(asked) <= asked && old(told) <= told && (forall c :: c in asked - old(asked) ==> On(d, c))
      ensures ok || !halt ==> forall c :: Known(c) && On(d, c) ==> c in active || c in asked
      ensures forall c :: !On(d, c) && Idle(old(live), c) ==> Idle(live, c)
    {
      ok := true;
      var i := 0;
      while i < 5
        invariant 0 <= i <= 5 && Sane(All(), degraded) && (old(degraded) ==> degraded) && Keeps(old(active), active)
        invariant forall c :: c in active && c !in old(active) ==> On(d, c)
        invariant faults >= old(faults) && (ok <==> faults == old(faults))
        invariant ok ==> degraded == old(degraded) && forall c :: Known(c) && Position(c) < i && On(d, c) ==> c in active
        invariant forall c :: Known(c) && Position(c) >= i && On(d, c) && c !in active ==> Idle(live, c)
        invariant old(asked) <= asked && old(told) <= told && (forall c :: c in asked - old(asked) ==> On(d, c))
        invariant forall c :: Known(c) && Position(c) < i && On(d, c) ==> c in active || c in asked
        invariant forall c :: !On(d, c) && Idle(old(live), c) ==> Idle(live, c)
      {
        assert Known(ALL[i]) && Position(ALL[i]) == i;
        if On(d, ALL[i]) && ALL[i] !in active {
          var started := Start(ALL[i]);
          if !started {
            ok := false;
            if halt { return; }
          }
        }
        i := i + 1;
      }
    }

    /** Go back to a policy as far as possible. */
    method Restore(d: Document) returns (ok: bool)
      requires Sane(All(), degraded) && forall c :: Known(c) && On(d, c) && c !in active ==> Idle(live, c)
      modifies `active, `degraded, `made, `live, `failed, `told, `asked, `faults
      ensures Sane(All(), degraded) && (old(degraded) ==> degraded)
      ensures ok ==> degraded == old(degraded) && forall c :: c in active <==> Known(c) && On(d, c)
      ensures !ok ==> degraded
      ensures faults >= old(faults) && (ok <==> faults == old(faults))
      ensures forall c :: c in old(active) && !On(d, c) ==> old(active)[c] in told
      ensures forall c :: Known(c) && On(d, c) ==> c in active || c in asked
      ensures forall c :: c in old(active) && On(d, c) ==> c in active && active[c] == old(active)[c]
    {
      SaneFacts(All(), degraded);
      asked := {};
      var stopped := StopOthers(d, false);
      var started := StartMissing(d, false);
      ok := stopped && started;
      SaneFacts(All(), degraded);
      if !ok { degraded := true; }
    }

    /** A newer policy of registered capabilities, offered to a manager that can take it. */
    predicate Admissible(interrupted: bool, next: Document)
      reads this
    {
      && !closed && !degraded && !interrupted && Wellformed(next) && next.version > current.version
      && forall c :: c in ALL && On(next, c) ==> c in registered
    }

    /** Why a policy is refused before anything is touched, exactly; go lets the transition begin. */
    method Refuse(interrupted: bool, next: Document) returns (r: Result, go: bool)
      ensures go <==> Admissible(interrupted, next)
      ensures !go ==> !r.Applied? && !r.Retained? && !r.NeedsAttention? && !r.RollbackIncomplete?
      ensures !go ==> (r.Unavailable? <==> closed || degraded)
      ensures !go && !r.Unavailable? ==> (r.Interrupted? <==> interrupted)
      ensures !go && !r.Unavailable? && !interrupted ==> (r.Invalid? <==> !Wellformed(next))
      ensures r.Unchanged? ==> Equal(next, current)
      ensures r.Stale? ==> next.version <= current.version && !Equal(next, current)
      ensures r.Unimplemented? ==> next.version > current.version && exists c :: Known(c) && On(next, c) && c !in registered
    {
      go := false;
      if closed || degraded { return Unavailable, false; }
      if interrupted { return Interrupted, false; }
      if !Wellformed(next) { return Invalid, false; }
      if Equal(next, current) { return Unchanged, false; }
      if next.version <= current.version { return Stale, false; }
      var i := 0;
      while i < 5
        invariant 0 <= i <= 5
        invariant forall c :: Known(c) && Position(c) < i && On(next, c) ==> c in registered
      {
        assert Known(ALL[i]) && Position(ALL[i]) == i;
        if On(next, ALL[i]) && ALL[i] !in registered { return Unimplemented, false; }
        i := i + 1;
      }
      assert forall c :: c in ALL ==> Known(c);
      return Applied, true;
    }

    /** Stop, then start, then save; false where the transition must be undone. */
    method Transition(next: Document) returns (ok: bool)
      requires Sane(All(), degraded) && !degraded && Wellformed(next)
      modifies `active, `degraded, `made, `live, `failed, `told, `asked, `kept, `faults
      ensures kept == old(kept) || (stored && kept == next)
      ensures ok && stored ==> kept == next
      ensures (exists c :: c in active && !On(next, c)) ==> made == old(made)
      ensures Sane(All(), degraded)
      ensures faults >= old(faults) && (ok <==> faults == old(faults))
      ensures ok ==> !degraded && forall c :: c in active <==> Known(c) && On(next, c)
      ensures forall c :: c in old(active) && On(next, c) ==> c in active && active[c] == old(active)[c]
      ensures forall c :: c in old(active) && !On(next, c) && c !in active ==> Idle(live, c)
      ensures Keeps(map c | c in active && !On(next, c) :: active[c], old(active))
    {
      SaneFacts(All(), degraded);
      ok := StopOthers(next, true);
      if ok {
        SaneFacts(All(), degraded);
        ok := StartMissing(next, true);
        SaneFacts(All(), degraded);
      }
      if ok {
        var cancelled: bool := *;
        if cancelled {
          Note(false);
          ok := false;
        } else if stored {
          ok := Save(next);
          if !ok { degraded := true; }
        }
      }
    }

    /** Store a policy; a save that fails may have happened. */
    method Save(next: Document) returns (ok: bool)
      modifies `kept, `faults
      ensures kept == old(kept) || kept == next
      ensures ok ==> kept == next
      ensures faults == old(faults) + if ok then 0 else 1
    {
      ok := *;
      ghost var happened: bool := *;
      Note(ok);
      if ok || happened { kept := next; }
    }

    /**
    Apply a policy.  On success exactly its capabilities are active; on failure the
    prior policy is current, and either its capabilities are active or the manager is
    degraded for good.  What both policies enable is never restarted.  An admissible policy
    is applied unless something fails.
    */
    method Apply(interrupted: bool, next: Document) returns (r: Result)
      requires Valid()
      modifies this
      ensures Valid() && closed == old(closed) && (old(degraded) ==> degraded)
      ensures r.Applied? ==> (&& current == next && next.version > old(current).version && !degraded
                              && forall c :: Known(c) && On(next, c) ==> c in registered)
      ensures !r.Applied? ==> current == old(current)
      ensures (kept == old(kept) || (stored && kept == next)) && (r.Applied? && stored ==> kept == next)
      ensures r.Applied? <==> old(Admissible(interrupted, next)) && faults == old(faults)
      ensures faults >= old(faults) && (r.Retained? || r.NeedsAttention? || r.RollbackIncomplete?
                                        <==> old(Admissible(interrupted, next)) && faults > old(faults))
      ensures r.Retained? ==> !degraded && !closed
      ensures r.NeedsAttention? || r.RollbackIncomplete? ==> degraded
      ensures forall c :: c in old(active) && On(old(current), c) && On(next, c) ==> c in active && active[c] == old(active)[c]
      ensures (exists c :: Known(c) && On(next, c) && c !in registered) || next.version <= old(current).version ==>
                active == old(active) && made == old(made) && live == old(live)
      ensures closed || old(degraded) ==> r.Unavailable? && active == old(active) && made == old(made)
    {
      var go;
      r, go := Refuse(interrupted, next);
      if !go { return; }
      SaneFacts(All(), degraded);
      var ok := Transition(next);
      if ok {
        current := next;
        return Applied;
      }
      var restored := Restore(current);
      if !restored { return RollbackIncomplete; }
      return if degraded then NeedsAttention else Retained;
    }

    /** Tell everything to stop; nothing is started again. */
    method Close() returns (ok: bool)
      requires Valid()
      modifies this
      ensures Valid() && closed && current == old(current) && made == old(made) && (old(degraded) ==> degraded)
      ensures ok ==> active == map[]
      ensures !ok ==> degraded
      ensures forall c :: c in old(active) ==> old(active)[c] in told
      ensures faults >= old(faults) && (ok <==> faults == old(faults))
      ensures Keeps(active, old(active))
    {
      closed := true;
      ok := StopOthers(Document(0, map[]), false);
      if ok { assert forall c :: c !in active; }
    }
  }
}
