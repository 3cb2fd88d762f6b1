/**
Splitting a snapshot into request bodies: slices of bounded length, halved until each
encodes within the byte bound.
*/
module Batching {

  datatype Failure = LimitsInvalid | NotSerialized | Oversize

  datatype Result<+T> = Ok(value: T) | Err(failure: Failure)

  function Flatten<P>(batches: seq<seq<P>>): seq<P> {
    if batches == [] then [] else Flatten(batches[..|batches| - 1]) + batches[|batches| - 1]
  }

  lemma FlattenAppend<P>(batches: seq<seq<P>>, b: seq<P>)
    ensures Flatten(batches + [b]) == Flatten(batches) + b
  {
    assert (batches + [b])[..|batches|] == batches;
  }

  function One<P>(values: seq<P>, k: nat): seq<P>
    requires k < |values|
  {
    values[k..k + 1]
  }

  /** A slice is no larger than what it is cut from. */
  ghost predicate Monotone<P(!new)>(size: seq<P> -> nat) {
    forall s: seq<P>, i: nat, j: nat :: i <= j <= |s| ==> size(s[i..j]) <= size(s)
  }

  class Batcher<P(==,!new)> {
    const size: seq<P> -> nat
    const serializes: seq<P> -> bool
    const maxPoints: int
    const maxBytes: int
    var result: seq<seq<P>>

    constructor (size: seq<P> -> nat, serializes: seq<P> -> bool, maxPoints: int, maxBytes: int)
      ensures this.size == size && this.serializes == serializes && this.maxPoints == maxPoints && this.maxBytes == maxBytes
      ensures result == []
    {
      this.size, this.serializes, this.maxPoints, this.maxBytes := size, serializes, maxPoints, maxBytes;
      result := [];
    }

    predicate Fits(b: seq<P>) { 1 <= |b| <= maxPoints && serializes(b) && size(b) <= maxBytes }

    /** Batches so far: each fits, and together they are the points before a position, in order. */
    ghost predicate Covers(values: seq<P>, upTo: nat)
      reads this
    {
      upTo <= |values| && Flatten(result) == values[..upTo] && forall b :: b in result ==> Fits(b)
    }

    /** Half of a run that was too large as one body. */
    ghost predicate Halved(b: seq<P>) {
      exists run: seq<P> :: HalfOf(b, run)
    }

    ghost predicate HalfOf(b: seq<P>, run: seq<P>) {
      |run| >= 2 && size(run) > maxBytes && (b == run[..|run| / 2] || b == run[|run| / 2..])
    }

    /** As many points as allowed, or the last ones, counting from a multiple of that many. */
    ghost predicate Slice(values: seq<P>, b: seq<P>) {
      exists k: nat :: SliceAt(values, b, k)
    }

    ghost predicate SliceAt(values: seq<P>, b: seq<P>, k: nat) {
      var o := k * maxPoints;
      && maxPoints > 0 && 0 <= o < |values|
      && b == values[o..if o + maxPoints > |values| then |values| else o + maxPoints]
    }

    /** Why a run of points failed: one of them alone is too large, or some slice does not serialize. */
    ghost predicate Blames(f: Failure, values: seq<P>, from: nat, to: nat)
      requires from <= to <= |values|
    {
      match f
      case LimitsInvalid => false
      case NotSerialized => exists i, j :: from <= i <= j <= to && !serializes(values[i..j])
      case Oversize => exists at :: from <= at < to && size(One(values, at)) > maxBytes
    }

    /** Encode a run of points, halving it while it is too large, and only then. */
    method Encode(ghost values: seq<P>, ghost from: nat, points: seq<P>) returns (r: Result<()>)
      requires from + |points| <= |values| && points == values[from..from + |points|]
      requires 1 <= |points| <= maxPoints && Covers(values, from)
      modifies `result
      ensures r.Ok? ==> Covers(values, from + |points|)
      ensures serializes(points) && size(points) <= maxBytes ==> r.Ok? && result == old(result) + [points]
      ensures forall b :: b in result ==> b in old(result) || b == points || Halved(b)
      ensures r.Err? ==> Blames(r.failure, values, from, from + |points|)
      decreases |points|
    {
      if !serializes(points) {
        return Err(NotSerialized);
      }
      if size(points) > maxBytes {
        if |points| <= 1 {
          assert points == One(values, from);
          return Err(Oversize);
        }
        var middle := |points| / 2;
        assert points[..middle] == values[from..from + middle];
        assert points[middle..] == values[from + middle..from + |points|];
        assert HalfOf(points[..middle], points) && HalfOf(points[middle..], points);
        r := Encode(values, from, points[..middle]);
        if r.Err? { return; }
        r := Encode(values, from + middle, points[middle..]);
        return;
      }
      FlattenAppend(result, points);
      assert values[..from] + points == values[..from + |points|];
      result := result + [points];
      return Ok(());
    }

    /** Split the values; on success the batches are the values in order, on failure some point is to blame. */
    method Batches(values: seq<P>) returns (r: Result<seq<seq<P>>>)
      requires result == []
      modifies `result
      ensures r == Err(LimitsInvalid) <==> maxPoints < 1 || maxPoints > 1000 || maxBytes < 1024
      ensures r.Ok? ==> Flatten(r.value) == values && forall b :: b in r.value ==> Fits(b)
      ensures r.Ok? ==> forall b :: b in r.value ==> Slice(values, b) || Halved(b)
      ensures r.Err? && !r.failure.LimitsInvalid? ==> Blames(r.failure, values, 0, |values|)
      ensures r.Ok? && Monotone(size) ==> forall k :: 0 <= k < |values| ==> size(One(values, k)) <= maxBytes
    {
      if maxPoints < 1 || maxPoints > 1000 || maxBytes < 1024 {
        return Err(LimitsInvalid);
      }
      var offset := 0;
      ghost var slices: nat := 0;
      while offset < |values|
        invariant 0 <= offset <= |values| && Covers(values, offset) && (offset == slices * maxPoints || offset == |values|)
        invariant forall b :: b in result ==> Slice(values, b) || Halved(b)
      {
        var end := offset + maxPoints;
        if end > |values| {
          end := |values|;
        }
        assert SliceAt(values, values[offset..end], slices);
        var e := Encode(values, offset, values[offset..end]);
        if e.Err? {
          return Err(e.failure);
        }
        offset, slices := end, slices + 1;
      }
      assert values[..|values|] == values;
      if Monotone(size) { PointsFit(result, size, maxBytes); }
      return Ok(result);
    }
  }

  lemma PointsFit<P(!new)>(batches: seq<seq<P>>, size: seq<P> -> nat, maxBytes: int)
    requires Monotone(size) && forall b :: b in batches ==> size(b) <= maxBytes
    ensures forall k :: 0 <= k < |Flatten(batches)| ==> size(One(Flatten(batches), k)) <= maxBytes
  {
    forall k | 0 <= k < |Flatten(batches)|
      ensures size(One(Flatten(batches), k)) <= maxBytes
    {
      PointInBatch(batches, k, size, maxBytes);
    }
  }

  /** For a size that does not shrink as points are added, a point of a batch that fits, fits alone. */
  lemma {:induction false} PointInBatch<P(!new)>(batches: seq<seq<P>>, k: nat, size: seq<P> -> nat, maxBytes: int)
    requires Monotone(size) && forall b :: b in batches ==> size(b) <= maxBytes
    requires k < |Flatten(batches)|
    ensures size(One(Flatten(batches), k)) <= maxBytes
  {
    var n := |batches| - 1;
    var rest, last := Flatten(batches[..n]), batches[n];
    if k < |rest| {
      PointInBatch(batches[..n], k, size, maxBytes);
      assert One(Flatten(batches), k) == One(rest, k);
    } else {
      var i := k - |rest|;
      assert One(Flatten(batches), k) == last[i..i + 1];
    }
  }
}
