/**
A private state directory as a crash sees it.

Every durable file of the agent is written the same way: create a stage, write it,
fsync it, rename it over its target, fsync the directory.  Between two of those
calls the machine may stop.  A directory is therefore kept here as the list of
views it has had since its last fsync: a crash keeps one of them.  A file whose
bytes were not fsynced may come back as it was before, as it was written, or torn.
*/
module Storage {

  datatype Option<+T> = None | Some(value: T)

  /** What a reader finds in a file: bytes that decode, or bytes that no decoder accepts. */
  datatype File<+T> = Torn(size: nat) | Whole(value: T)

  /** A file as last written, and as last made durable. */
  datatype Cell<+T> = Cell(file: File<T>, floor: File<T>)

  ghost predicate Outcome<T>(c: Cell<T>, f: File<T>) {
    f == c.floor || (c.file != c.floor && (f == c.file || f.Torn?))
  }

  /** Image is what a crash may leave of a directory whose surviving view is view. */
  ghost predicate Leaves<N, T>(view: map<N, Cell<T>>, image: map<N, File<T>>) {
    image.Keys == view.Keys && forall n :: n in view ==> Outcome(view[n], image[n])
  }

  ghost predicate Survivor<N, T>(views: seq<map<N, Cell<T>>>, image: map<N, File<T>>) {
    exists i :: 0 <= i < |views| && Leaves(views[i], image)
  }

  ghost predicate AllDurable<N, T>(view: map<N, Cell<T>>) {
    forall n :: n in view ==> view[n].file == view[n].floor
  }

  ghost predicate AreFiles<N, T>(view: map<N, Cell<T>>, image: map<N, File<T>>) {
    image.Keys == view.Keys && forall n :: n in view ==> image[n] == view[n].file
  }

  /** The files programs see in a view. */
  ghost function Files<N, T>(view: map<N, Cell<T>>): (image: map<N, File<T>>)
    ensures AreFiles(view, image)
  {
    var built := map n | n in view :: view[n].file;
    assert AreFiles(view, built);
    var image :| AreFiles(view, image);
    image
  }

  /** What is left when the filling of a stage is cut anywhere. */
  ghost predicate StageCut<N, T>(before: map<N, File<T>>, stage: N, value: T, after: map<N, File<T>>) {
    || after == before
    || (stage in after && after[stage].Torn? && after == before[stage := after[stage]])
    || after == before[stage := Whole(value)]
  }

  /** What is left when the replacement of target by way of stage is cut anywhere. */
  ghost predicate ReplaceCut<N, T>(before: map<N, File<T>>, stage: N, target: N, value: T, after: map<N, File<T>>) {
    StageCut(before, stage, value, after) || after == Replaced(before, stage, target, value)
  }

  function Replaced<N, T>(before: map<N, File<T>>, stage: N, target: N, value: T): map<N, File<T>> {
    (before - {stage})[target := Whole(value)]
  }

  function Moved<N, T>(before: map<N, File<T>>, source: N, target: N): map<N, File<T>>
    requires source in before
  {
    (before - {source})[target := before[source]]
  }

  /** The views after a directory operation; the new view is the one programs read. */
  function SetCell<N, T>(views: seq<map<N, Cell<T>>>, n: N, c: Cell<T>): (r: seq<map<N, Cell<T>>>)
    ensures |r| == |views|
    ensures forall i :: 0 <= i < |views| ==> r[i] == if n in views[i] then views[i][n := c] else views[i]
  {
    seq(|views|, i requires 0 <= i < |views| => if n in views[i] then views[i][n := c] else views[i])
  }

  lemma SetCellLast<N, T>(prefix: seq<map<N, Cell<T>>>, last: map<N, Cell<T>>, n: N, c: Cell<T>)
    requires n in last && forall i :: 0 <= i < |prefix| ==> n !in prefix[i]
    ensures SetCell(prefix + [last], n, c) == prefix + [last[n := c]]
  {
  }

  lemma SetStage<N, T>(prefix: seq<map<N, Cell<T>>>, v0: map<N, Cell<T>>, n: N, a: Cell<T>, b: Cell<T>)
    requires forall i :: 0 <= i < |prefix| ==> n !in prefix[i]
    ensures SetCell(prefix + [v0[n := a]], n, b) == prefix + [v0[n := b]]
  {
    SetCellLast(prefix, v0[n := a], n, b);
    assert v0[n := a][n := b] == v0[n := b];
  }

  /** A settled directory can come back from a crash in one way only. */
  lemma SettledSurvivor<N, T>(view: map<N, Cell<T>>, image: map<N, File<T>>)
    requires AllDurable(view)
    ensures Survivor([view], image) <==> image == Files(view)
  {
    if Survivor([view], image) {
      assert Leaves(view, image);
    }
    if image == Files(view) {
      assert Leaves([view][0], image);
    }
  }

  /** While the stage is being filled, a crash leaves the directory as it was but for the stage. */
  lemma StagedSurvivors<N, T>(v0: map<N, Cell<T>>, stage: N, value: T, c: Cell<T>)
    requires AllDurable(v0)
    requires c.file.Torn? || c.file == Whole(value)
    requires c.floor == Whole(value) || c.floor == if stage in v0 then v0[stage].file else Torn(0)
    ensures forall image :: Leaves(v0, image) || Leaves(v0[stage := c], image)
                            ==> StageCut(Files(v0), stage, value, image)
  {
    forall image | Leaves(v0, image) || Leaves(v0[stage := c], image)
      ensures StageCut(Files(v0), stage, value, image)
    {
      if Leaves(v0, image) {
        assert image == Files(v0);
      } else {
        assert Outcome(c, image[stage]);
        assert image == Files(v0)[stage := image[stage]];
      }
    }
  }

  /**
  The directory itself.  Every call may fail with an I/O error, and the machine may
  stop during any call; once it has stopped no later call has any effect.  Faults
  counts the calls that did not go through.
  */
  class Directory<N(==), T> {
    var views: seq<map<N, Cell<T>>>
    var halted: bool
    ghost var faults: nat

    constructor (view: map<N, Cell<T>>)
      ensures views == [view] && !halted
    {
      views := [view];
      halted := false;
      faults := 0;
    }

    ghost predicate Settled()
      reads `views, `halted
    {
      |views| == 1 && AllDurable(views[0]) && !halted
    }

    function Now(): map<N, Cell<T>>
      reads `views
      requires |views| > 0
    {
      views[|views| - 1]
    }

    ghost function Image(): map<N, File<T>>
      reads `views
      requires |views| > 0
    {
      Files(Now())
    }

    function Read(n: N): (file: File<T>)
      reads `views
      requires |views| > 0 && n in Now()
      ensures file == Image()[n]
    {
      Now()[n].file
    }

    method List() returns (names: set<N>)
      requires |views| > 0
      ensures names == Now().Keys
    {
      names := Now().Keys;
    }

    /** True when the next call goes through; otherwise it fails, or the machine stops. */
    method Proceeds() returns (go: bool)
      modifies `halted, `faults
      ensures old(halted) ==> halted
      ensures go ==> !halted && !old(halted)
      ensures faults == old(faults) + if go then 0 else 1
    {
      var stop: bool := *;
      halted := halted || stop;
      go := *;
      go := go && !halted;
      if !go { faults := faults + 1; }
    }

    /** open(O_CREAT|O_EXCL), or open(O_CREAT|O_TRUNC) when not exclusive. */
    method Create(n: N, exclusive: bool) returns (ok: bool)
      requires |views| > 0
      modifies this
      ensures old(halted) ==> halted
      ensures !ok ==> views == old(views)
      ensures ok ==> !halted && !(exclusive && n in old(Now()))
      ensures old(faults) <= faults <= old(faults) + 1 && (ok <==> faults == old(faults) && !(exclusive && n in old(Now())))
      ensures ok && n !in old(Now()) ==> views == old(views) + [old(Now())[n := Cell(Torn(0), Torn(0))]]
      ensures ok && n in old(Now()) ==>
                views == SetCell(old(views), n, Cell(Torn(0), old(Now())[n].floor))
    {
      ok := Proceeds();
      if n in Now() {
        if exclusive {
          ok := false;
        } else if ok {
          views := SetCell(views, n, Cell(Torn(0), Now()[n].floor));
        }
      } else if ok {
        views := views + [Now()[n := Cell(Torn(0), Torn(0))]];
      }
    }

    /** write(2): a failed write leaves torn bytes. */
    method Write(n: N, value: T) returns (ok: bool)
      requires |views| > 0 && n in Now() && Now()[n].file == Torn(0)
      modifies this
      ensures old(halted) ==> halted
      ensures ok ==> !halted && views == SetCell(old(views), n, Cell(Whole(value), old(Now())[n].floor))
      ensures faults == old(faults) + if ok then 0 else 1
      ensures !ok ==> views == old(views)
                      || exists size :: views == SetCell(old(views), n, Cell(Torn(size), old(Now())[n].floor))
    {
      ok := Proceeds();
      if ok {
        views := SetCell(views, n, Cell(Whole(value), Now()[n].floor));
      } else {
        var part: nat := *;
        if part > 0 && !halted {
          views := SetCell(views, n, Cell(Torn(part), Now()[n].floor));
        }
      }
    }

    method SyncFile(n: N) returns (ok: bool)
      requires |views| > 0 && n in Now()
      modifies this
      ensures old(halted) ==> halted
      ensures ok ==> !halted && views == SetCell(old(views), n, Cell(old(Now())[n].file, old(Now())[n].file))
      ensures faults == old(faults) + if ok then 0 else 1
      ensures !ok ==> views == old(views)
    {
      ok := Proceeds();
      if ok {
        views := SetCell(views, n, Cell(Now()[n].file, Now()[n].file));
      }
    }

    method Rename(source: N, target: N) returns (ok: bool)
      requires |views| > 0 && source in Now()
      modifies this
      ensures old(halted) ==> halted
      ensures ok ==> !halted && views == old(views) + [(old(Now()) - {source})[target := old(Now())[source]]]
      ensures faults == old(faults) + if ok then 0 else 1
      ensures !ok ==> views == old(views)
    {
      ok := Proceeds();
      if ok {
        views := views + [(Now() - {source})[target := Now()[source]]];
      }
    }

    method Remove(n: N) returns (ok: bool)
      requires |views| > 0
      modifies this
      ensures old(halted) ==> halted
      ensures ok ==> !halted && n in old(Now()) && views == old(views) + [old(Now()) - {n}]
      ensures faults >= old(faults) && (ok <==> faults == old(faults) && n in old(Now()))
      ensures !ok ==> views == old(views)
    {
      ok := Proceeds();
      ok := ok && n in Now();
      if ok {
        views := views + [Now() - {n}];
      }
    }

    method SyncDir() returns (ok: bool)
      requires |views| > 0
      modifies this
      ensures old(halted) ==> halted
      ensures ok ==> !halted && views == [old(Now())]
      ensures faults == old(faults) + if ok then 0 else 1
      ensures !ok ==> views == old(views)
    {
      ok := Proceeds();
      if ok {
        views := [Now()];
      }
    }

    /** Create a stage, write it, fsync it. */
    method Fill(stage: N, value: T, exclusive: bool) returns (ok: bool)
      requires Settled()
      modifies this
      ensures ok ==> !halted
      ensures ok && exclusive ==> stage !in old(Now())
      ensures old(faults) <= faults <= old(faults) + 1 && (ok <==> faults == old(faults) && !(exclusive && stage in old(Now())))
      ensures ok ==> views == (if stage in old(Now()) then [] else old(views))
                              + [old(Now())[stage := Cell(Whole(value), Whole(value))]]
      ensures |views| > 0 && Now() - {stage} == old(Now()) - {stage}
      ensures forall image :: Survivor(views, image) ==> StageCut(old(Image()), stage, value, image)
    {
      ghost var v0 := Now();
      ghost var floor := if stage in v0 then v0[stage].file else Torn(0);
      StagedSurvivors(v0, stage, value, Cell(Torn(0), floor));
      ok := Create(stage, exclusive);
      if ok {
        ghost var prefix := if stage in v0 then [] else [v0];
        assert views == prefix + [v0[stage := Cell(Torn(0), floor)]];
        ok := FillCreated(stage, value, v0, prefix, floor);
      }
    }

    /** Write a stage just created, and fsync it. */
    method FillCreated(stage: N, value: T, ghost v0: map<N, Cell<T>>, ghost prefix: seq<map<N, Cell<T>>>, ghost floor: File<T>)
      returns (ok: bool)
      requires AllDurable(v0) && !halted
      requires floor == if stage in v0 then v0[stage].file else Torn(0)
      requires prefix == if stage in v0 then [] else [v0]
      requires views == prefix + [v0[stage := Cell(Torn(0), floor)]]
      modifies this
      ensures ok ==> !halted && views == prefix + [v0[stage := Cell(Whole(value), Whole(value))]]
      ensures faults == old(faults) + if ok then 0 else 1
      ensures |views| > 0 && Now() - {stage} == v0 - {stage}
      ensures forall image :: Survivor(views, image) ==> StageCut(Files(v0), stage, value, image)
    {
      StagedSurvivors(v0, stage, value, Cell(Torn(0), floor));
      ok := Write(stage, value);
      ghost var cell := Now()[stage];
      SetStage(prefix, v0, stage, Cell(Torn(0), floor), cell);
      StagedSurvivors(v0, stage, value, cell);
      if !ok { return; }
      ok := SyncFile(stage);
      if !ok { return; }
      SetStage(prefix, v0, stage, cell, Cell(Whole(value), Whole(value)));
      StagedSurvivors(v0, stage, value, Cell(Whole(value), Whole(value)));
    }

    /** Rename a file over its target and fsync the directory. */
    method Commit(source: N, target: N) returns (moved: bool, ok: bool)
      requires |views| > 0 && source in Now() && source != target && !halted && AllDurable(Now())
      modifies this
      ensures |views| > 0
      ensures if moved then source !in Now() else views == old(views)
      ensures faults == old(faults) + if ok then 0 else 1
      ensures ok ==> moved && Settled() && Image() == Moved(old(Image()), source, target)
      ensures forall image :: Survivor(views, image)
                ==> Survivor(old(views), image) || image == Moved(old(Image()), source, target)
    {
      ghost var before := views;
      ok := false;
      moved := Rename(source, target);
      if !moved { return; }
      ghost var done := Now();
      assert AllDurable(done);
      assert Files(done) == Moved(Files(before[|before| - 1]), source, target);
      forall image | Leaves(done, image)
        ensures image == Files(done)
      {
      }
      forall image | Survivor(views, image)
        ensures Survivor(before, image) || image == Files(done)
      {
        var i :| 0 <= i < |views| && Leaves(views[i], image);
        if i < |before| { assert Leaves(before[i], image); }
      }
      ok := SyncDir();
    }

    /** Remove a file and fsync the directory. */
    method Drop(n: N) returns (removed: bool, ok: bool)
      requires Settled()
      modifies this
      ensures |views| > 0
      ensures !removed ==> views == old(views)
      ensures faults >= old(faults) && (ok <==> faults == old(faults) && n in old(Now()))
      ensures ok ==> removed && Settled() && n in old(Image()) && Image() == old(Image()) - {n}
      ensures forall image :: Survivor(views, image) ==> image == old(Image()) || image == old(Image()) - {n}
    {
      ghost var v0 := Now();
      forall image | Leaves(v0, image) || Leaves(v0 - {n}, image)
        ensures image == Files(v0) || image == Files(v0) - {n}
      {
        if Leaves(v0, image) {
          assert image == Files(v0);
        } else {
          assert image == Files(v0) - {n};
        }
      }
      ok := false;
      removed := Remove(n);
      if !removed { return; }
      assert Files(Now()) == Files(v0) - {n};
      ok := SyncDir();
    }

    /** One durable replacement: stage, write, fsync, rename, fsync the directory. */
    method Replace(stage: N, target: N, value: T, exclusive: bool) returns (ok: bool)
      requires Settled() && stage != target
      modifies this
      ensures ok ==> Settled() && Image() == Replaced(old(Image()), stage, target, value)
      ensures ok && exclusive ==> stage !in old(Image())
      ensures faults >= old(faults) && (ok <==> faults == old(faults) && !(exclusive && stage in old(Image())))
      ensures |views| > 0
      ensures forall image :: Survivor(views, image) ==> ReplaceCut(old(Image()), stage, target, value, image)
    {
      ok := Fill(stage, value, exclusive);
      if !ok { return; }
      ghost var filled := Image();
      assert filled == old(Image())[stage := Whole(value)];
      assert Moved(filled, stage, target) == Replaced(old(Image()), stage, target, value);
      var moved: bool;
      moved, ok := Commit(stage, target);
    }
  }
}
