/**
What a checkpoint past held lines costs when the agent stops before the group it
interrupts is handed over.
*/
module HandoffLoss {
  import opened Storage
  import opened LogQueue
  import opened Handoff
  import opened HandoffOrder
  import opened HandoffRuns

  /** The later range comes after, or is a record offered again that reaches back over what was not passed. */
  ghost predicate Beyond(a: Event, b: Event)
    requires !a.Begin? && !b.Begin?
  {
    a.end <= b.start || (IsRecord(b) && !a.Passed? && b.start <= a.start)
  }

  /** Two ranges of a generation share no byte, but for a record offered again. */
  lemma {:induction false} TilesDisjoint(l: Ledger, i: nat, j: nat)
    requires Tiled(l) && i < j < |l| && !l[i].Begin? && !l[j].Begin? && l[i].gen == l[j].gen
    ensures Beyond(l[i], l[j])
    decreases j
  {
    assert Follows(l, j);
    if l[j].start == After(l[j - 1]) {
      var m := l[..j];
      TiledPrefix(l, j);
      TiledBehind(m);
      assert l[i] in m && m[j - 1] == l[j - 1];
    } else if IsRecord(l[j - 1]) && l[j - 1].start == l[j].start {
      if i < j - 1 { TilesDisjoint(l, i, j - 1); }
    } else {
      assert Follows(l, j - 1) && Follows(l, j - 2);
      if i < j - 2 { TilesDisjoint(l, i, j - 2); }
    }
  }

  /** A record kept anywhere in the ledger shares no byte with a range passed over. */
  lemma PassedUnkept(l: Ledger, p: Event, id: Id)
    requires Tiled(l) && p in l && p.Passed?
    requires Mark(id) in l && id.gen == p.gen
    ensures id.end <= p.start || p.end <= id.start
  {
    var i :| 0 <= i < |l| && l[i] == p;
    var j :| 0 <= j < |l| && l[j] == Mark(id);
    if i < j { TilesDisjoint(l, i, j); } else { TilesDisjoint(l, j, i); }
  }

  /** Every place a checkpoint can come from has passed over the range. */
  ghost predicate PassedEverywhere(w: World, p: Event) {
    p.Passed? && p in w.base && p in w.memory.ledger && p in w.disk.ledger
  }

  lemma PassedStep(src: Source, w: World, p: Event, a: Action)
    requires PassedEverywhere(w, p) && Enabled(src, w, a)
    ensures PassedEverywhere(Apply(src, w, a), p)
  {
  }

  lemma {:induction false} PassedRun(src: Source, w: World, p: Event, run: seq<Action>)
    requires PassedEverywhere(w, p) && Legal(src, w, run)
    ensures PassedEverywhere(Run(src, w, run), p)
    decreases |run|
  {
    if run != [] {
      PassedStep(src, w, p, run[0]);
      PassedRun(src, Apply(src, w, run[0]), p, run[1..]);
    }
  }

  /** After a restart nothing the durable checkpoint has passed over is ever delivered. */
  lemma PassedIsLost(src: Source, w: World, p: Event, run: seq<Action>, n: nat)
    requires Ok(src, w) && Enabled(src, w, Restart) && p in w.disk.ledger && p.Passed?
    requires Legal(src, Apply(src, w, Restart), run)
    requires var x := Run(src, Apply(src, w, Restart), run);
             Mine(src, x.queue, n) && x.queue.recs[n].ready && IdAt(x, n).gen == p.gen
    ensures var id := IdAt(Run(src, Apply(src, w, Restart), run), n);
            id.end <= p.start || p.end <= id.start
  {
    var y := Apply(src, w, Restart);
    StepInv(src, w, Restart);
    StepOrder(src, w, Restart);
    RecoverStep(src, w, Restart);
    PassedRun(src, y, p, run);
    RunOk(src, y, run);
    var x := Run(src, y, run);
    PassedUnkept(x.base, p, IdAt(x, n));
  }

  // ---------- an overrun, and then a restart ----------

  /** The ledger has passed over at least the range. */
  ghost predicate PassedOver(l: Ledger, g: nat, s: nat, e: nat) {
    exists p :: p in l && p.Passed? && p.gen == g && p.start <= s && e <= p.end
  }

  /**
  Any step but a return to a checkpoint, a new generation, or a durable save that is not
  a further overrun; the checkpoint table is written again only if it has the overrun.
  */
  predicate Between(a: Action, e: nat, saved: bool) {
    match a
    case Save(v, durable, _) => !durable || (v.Overrun? && v.end >= e)
    case Note(_, _, _) => false
    case Reopen => false
    case Restart => false
    case Resave => saved
    case _ => true
  }

  ghost predicate Overran(src: Source, w: World, g: nat, s: nat, e: nat, saved: bool) {
    && w.base != [] && GenOf(w.base) == g && StartOf(src, w.base) == s < e
    && PassedOver(w.disk.ledger, g, s, e) && (saved ==> PassedOver(w.memory.ledger, g, s, e))
  }

  /** What an overrun adds passes over the range. */
  lemma OverrunPasses(src: Source, w: World, v: Advance, s: nat, e: nat)
    requires Regular(src) && w.base != [] && CanAdvance(src, w, v) && v.Overrun? && v.end >= e > s == StartOf(src, w.base)
    ensures PassedOver(w.base + Moves(src, w, v), GenOf(w.base), s, e)
  {
    var p := Passed(GenOf(w.base), v.start, v.end);
    assert v.start == s;
    assert p in Moves(src, w, v);
    assert p in w.base + Moves(src, w, v);
  }

  lemma BetweenStep(src: Source, w: World, g: nat, s: nat, e: nat, saved: bool, a: Action)
    requires Regular(src) && Overran(src, w, g, s, e, saved) && Enabled(src, w, a) && Between(a, e, saved)
    ensures Overran(src, Apply(src, w, a), g, s, e, saved)
  {
    if a.Save? && a.durable { OverrunPasses(src, w, a.advance, s, e); }
  }

  lemma {:induction false} BetweenRun(src: Source, w: World, g: nat, s: nat, e: nat, saved: bool, run: seq<Action>)
    requires Regular(src) && Overran(src, w, g, s, e, saved) && Legal(src, w, run)
    requires forall k :: 0 <= k < |run| ==> Between(run[k], e, saved)
    ensures Overran(src, Run(src, w, run), g, s, e, saved)
    decreases |run|
  {
    if run != [] {
      BetweenStep(src, w, g, s, e, saved, run[0]);
      BetweenRun(src, Apply(src, w, run[0]), g, s, e, saved, run[1..]);
    }
  }

  lemma StillOverran(src: Source, w: World, v: Advance, saved: bool, between: seq<Action>)
    requires Ok(src, w) && v.Overrun? && v.start < v.end && Enabled(src, w, Save(v, true, saved))
    requires Legal(src, Apply(src, w, Save(v, true, saved)), between)
    requires forall k :: 0 <= k < |between| ==> Between(between[k], v.end, saved)
    ensures var y := Run(src, Apply(src, w, Save(v, true, saved)), between);
            Ok(src, y) && PassedOver(y.disk.ledger, GenOf(w.base), v.start, v.end)
  {
    var x := Apply(src, w, Save(v, true, saved));
    StepOk(src, w, Save(v, true, saved));
    OverrunPasses(src, w, v, v.start, v.end);
    BetweenRun(src, x, GenOf(w.base), v.start, v.end, saved, between);
    RunOk(src, x, between);
  }

  /**
  An oversize line moves the durable checkpoint past the group held.  If the agent
  restarts before another record is committed, no continuation ever delivers a byte of
  that group, whatever happened between.
  */
  lemma OverrunThenRestartLoses(src: Source, w: World, v: Advance, saved: bool, between: seq<Action>, run: seq<Action>, n: nat)
    requires Ok(src, w) && v.Overrun? && v.start < v.end && Enabled(src, w, Save(v, true, saved))
    requires Legal(src, Apply(src, w, Save(v, true, saved)), between)
    requires forall k :: 0 <= k < |between| ==> Between(between[k], v.end, saved)
    requires var y := Run(src, Apply(src, w, Save(v, true, saved)), between);
             && Enabled(src, y, Restart) && Legal(src, Apply(src, y, Restart), run)
             && var x := Run(src, Apply(src, y, Restart), run);
                Mine(src, x.queue, n) && x.queue.recs[n].ready && IdAt(x, n).gen == GenOf(w.base)
    ensures var y := Run(src, Apply(src, w, Save(v, true, saved)), between);
            var id := IdAt(Run(src, Apply(src, y, Restart), run), n);
            id.end <= v.start || v.end <= id.start
  {
    StillOverran(src, w, v, saved, between);
    var y := Run(src, Apply(src, w, Save(v, true, saved)), between);
    var p :| p in y.disk.ledger && p.Passed? && p.gen == GenOf(w.base) && p.start <= v.start && v.end <= p.end;
    PassedIsLost(src, y, p, run, n);
  }
}
