/**
Taking up a file: where reading resumes, and what a changed fingerprint costs.
*/
module Discovery {
  import opened Storage
  import opened LogQueue
  import opened Handoff
  import opened HandoffOrder
  import opened HandoffRuns

  /** The checkpoint table's entry for a file. */
  datatype Entry = Entry(generation: nat, offset: nat, fingerprint: string)

  /** The first 256 bytes stand for their hash. */
  function Fingerprint(data: string): string {
    if |data| <= 256 then data else data[..256]
  }

  /** Appending keeps the fingerprint exactly when 256 bytes were there already. */
  lemma AppendKeepsFingerprint(before: string, data: string)
    requires before <= data
    ensures Fingerprint(data) == Fingerprint(before) <==> |before| >= 256 || data == before
  {
    if |before| >= 256 {
      assert data[..256] == before[..256];
    } else if |data| > |before| {
      assert |Fingerprint(data)| > |Fingerprint(before)|;
    }
  }

  /** The entry a newly opened file gets; the second result tells whether it is a new one. */
  function TakeUp(known: Option<Entry>, data: string, atEnd: bool): (r: (Entry, bool))
    ensures !r.1 <==> known.Some? && known.value.fingerprint == Fingerprint(data)
    ensures !r.1 ==> r.0 == known.value
    ensures r.1 && known.Some? ==> r.0.generation == known.value.generation + 1
  {
    var fp := Fingerprint(data);
    if known.Some? && known.value.fingerprint == fp then (known.value, false)
    else
      var generation := if known.Some? then known.value.generation + 1 else 0;
      var offset := if atEnd then |data| else if known.Some? then known.value.offset else 0;
      (Entry(generation, offset, fp), true)
  }

  /** A file first seen is read from its start, or its end, and taken up there again if it has not grown. */
  lemma FirstSeen(data: string, atEnd: bool)
    ensures var r := TakeUp(None, data, atEnd);
            && r.1 && r.0.generation == 0 && r.0.offset == (if atEnd then |data| else 0)
            && TakeUp(Some(r.0), data, atEnd) == (r.0, false)
  {
  }

  /**
  A file that was discovered holding before, grew to data, and is taken up again
  resumes where its checkpoint left it exactly when it held 256 bytes or did not grow.
  Otherwise start_at=end passes over everything appended since the checkpoint.
  */
  lemma ResumesIff(before: string, data: string, generation: nat, offset: nat, atEnd: bool)
    requires before <= data && offset <= |data|
    ensures var r := TakeUp(Some(Entry(generation, offset, Fingerprint(before))), data, atEnd);
            && (r.0.generation == generation <==> |before| >= 256 || data == before)
            && (r.0.generation == generation ==> r.0.offset == offset)
            && (r.0.generation != generation ==> r.0.offset == if atEnd then |data| else offset)
  {
    AppendKeepsFingerprint(before, data);
  }

  /** Taking up a file under a new generation is a step of the hand-off, and forgets the admission remembered. */
  lemma DiscoveryLegal(src: Source, w: World, known: Entry, data: string, atEnd: bool)
    requires Ok(src, w) && w.memory.ledger == w.base
    requires known.generation == GenOf(w.base) && known.offset == OffsetOf(w.base)
    requires TakeUp(Some(known), data, atEnd).1
    ensures var r := TakeUp(Some(known), data, atEnd).0;
            var run := [Note(r.generation, r.offset, true), Save(Restate, true, true)];
            && Legal(src, w, run) && Ok(src, Run(src, w, run))
            && Run(src, w, run).disk == Checkpoint(w.base + [Begin(r.generation, r.offset)], None)
            && (Run(src, w, run).quiet <==> w.quiet && !Unsettled(w))
  {
    var r := TakeUp(Some(known), data, atEnd).0;
    var note, save := Note(r.generation, r.offset, true), Save(Restate, true, true);
    var run := [note, save];
    assert Enabled(src, w, note);
    var x := Apply(src, w, note);
    assert Enabled(src, x, save);
    assert run[1..] == [save] && [save][1..] == [];
    assert Legal(src, x, [save]);
    RunOk(src, w, run);
    var y := Apply(src, x, save);
    assert Run(src, x, [save]) == Run(src, y, [save][1..]) == y;
    assert Run(src, w, run) == Run(src, x, run[1..]);
    assert Moves(src, x, Restate) == [];
  }
}
