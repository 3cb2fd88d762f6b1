/**
A checkpoint file as the readers save it: a truncated stage, written, fsynced and
renamed over the target, the directory fsynced.  Saves go on after failed ones.
*/
module CheckpointFile {
  import opened Storage

  datatype CheckpointName = Target | Stage

  type View<T> = map<CheckpointName, Cell<T>>

  /** The target of a view, if it has one, is whole and durable. */
  ghost predicate Sound<T>(v: View<T>) {
    Target in v ==> v[Target].file.Whole? && v[Target].floor == v[Target].file
  }

  function TargetOf<T>(v: View<T>): Option<File<T>> {
    if Target in v then Some(v[Target].file) else None
  }

  /** What a crash may leave as the checkpoint. */
  ghost predicate MayLoad<T(!new)>(views: seq<View<T>>, found: Option<File<T>>) {
    exists k :: 0 <= k < |views| && TargetOf(views[k]) == found
  }

  ghost predicate AllSound<T>(views: seq<View<T>>) {
    |views| > 0 && forall k :: 0 <= k < |views| ==> Sound(views[k])
  }

  /** The stage may change in any view; targets do not. */
  lemma StageOnly<T>(views: seq<View<T>>, c: Cell<T>)
    ensures var r := SetCell(views, Stage, c);
            forall k :: 0 <= k < |views| ==> TargetOf(r[k]) == TargetOf(views[k]) && (Sound(views[k]) ==> Sound(r[k]))
  {
  }

  lemma SameTargets<T(!new)>(before: seq<View<T>>, after: seq<View<T>>)
    requires |after| >= |before| > 0
    requires forall k :: 0 <= k < |before| ==> TargetOf(after[k]) == TargetOf(before[k])
    requires forall k :: |before| <= k < |after| ==> TargetOf(after[k]) == TargetOf(before[|before| - 1])
    ensures forall found :: MayLoad(after, found) ==> MayLoad(before, found)
  {
  }

  /** Whatever survives a crash loads as one of the targets, never torn. */
  lemma LoadsWhole<T(!new)>(views: seq<View<T>>, image: map<CheckpointName, File<T>>)
    requires AllSound(views) && Survivor(views, image)
    ensures Target in image ==> image[Target].Whole?
    ensures MayLoad(views, if Target in image then Some(image[Target]) else None)
  {
    var k :| 0 <= k < |views| && Leaves(views[k], image);
    assert Target in views[k] ==> Outcome(views[k][Target], image[Target]);
    assert TargetOf(views[k]) == if Target in image then Some(image[Target]) else None;
  }

  class CheckpointFile<T(!new)> {
    const dir: Directory<CheckpointName, T>

    constructor (dir: Directory<CheckpointName, T>)
      ensures this.dir == dir
    {
      this.dir := dir;
    }

    /**
    Save a checkpoint.  A save that succeeds is the only one a crash can leave; one that
    fails may have happened or not; and no crash ever leaves a torn checkpoint.
    */
    method Save(value: T) returns (ok: bool)
      requires AllSound(dir.views)
      modifies dir
      ensures AllSound(dir.views)
      ensures dir.faults >= old(dir.faults) && (ok <==> dir.faults == old(dir.faults))
      ensures ok ==> forall found :: MayLoad(dir.views, found) <==> found == Some(Whole(value))
      ensures forall found :: MayLoad(dir.views, found) ==> found == Some(Whole(value)) || MayLoad(old(dir.views), found)
    {
      ok := Prepare(value);
      if !ok { return; }
      ghost var prepared := dir.views;
      ok := dir.Rename(Stage, Target);
      if !ok { return; }
      assert TargetOf(dir.Now()) == Some(Whole(value)) && Sound(dir.Now());
      forall found | MayLoad(dir.views, found)
        ensures found == Some(Whole(value)) || MayLoad(prepared, found)
      {
        var k :| 0 <= k < |dir.views| && TargetOf(dir.views[k]) == found;
        if k < |prepared| { assert TargetOf(prepared[k]) == found; }
      }
      ok := dir.SyncDir();
      if ok { assert TargetOf(dir.views[0]) == Some(Whole(value)); }
    }

    /** Create or truncate the stage, write it, fsync it; no target changes. */
    method Prepare(value: T) returns (ok: bool)
      requires AllSound(dir.views)
      modifies dir
      ensures AllSound(dir.views)
      ensures dir.faults >= old(dir.faults) && (ok <==> dir.faults == old(dir.faults))
      ensures ok ==> !dir.halted && Stage in dir.Now() && dir.Now()[Stage] == Cell(Whole(value), Whole(value))
      ensures forall found :: MayLoad(dir.views, found) ==> MayLoad(old(dir.views), found)
    {
      ghost var v0: seq<View<T>> := dir.views;
      ok := dir.Create(Stage, false);
      if !ok { return; }
      ghost var v1 := dir.views;
      Created(v0, v1);
      ok := dir.Write(Stage, value);
      ghost var v2 := dir.views;
      StageSet(v1, v2);
      SameTargets(v1, v2);
      if !ok { return; }
      ok := dir.SyncFile(Stage);
      StageSet(v2, dir.views);
      SameTargets(v2, dir.views);
    }
  }

  lemma Created<T(!new)>(before: seq<View<T>>, after: seq<View<T>>)
    requires AllSound(before)
    requires var last := before[|before| - 1];
             if Stage in last then after == SetCell(before, Stage, Cell(Torn(0), last[Stage].floor))
             else after == before + [last[Stage := Cell(Torn(0), Torn(0))]]
    ensures AllSound(after) && forall found :: MayLoad(after, found) ==> MayLoad(before, found)
  {
    var last := before[|before| - 1];
    if Stage in last {
      StageOnly(before, Cell(Torn(0), last[Stage].floor));
    }
    SameTargets(before, after);
  }

  lemma StageSet<T(!new)>(before: seq<View<T>>, after: seq<View<T>>)
    requires AllSound(before)
    requires after == before || exists c :: after == SetCell(before, Stage, c)
    ensures AllSound(after) && |after| == |before|
    ensures forall k :: 0 <= k < |before| ==> TargetOf(after[k]) == TargetOf(before[k])
  {
    if after != before {
      var c :| after == SetCell(before, Stage, c);
      StageOnly(before, c);
    }
  }
}
