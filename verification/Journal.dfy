/**
The journal reader: which entries it asks journalctl for, and how its cursor moves.
*/
module Journal {
  import opened Keys
  import opened Storage
  import opened LogQueue
  import opened Handoff
  import opened HandoffOrder
  import opened HandoffRuns
  import opened Reader

  /** An entry as journalctl prints it; a cursor is written as its rank, and parsed tells
  whether the entry has one and a message. */
  datatype Entry = Entry(cursor: nat, micros: int, length: nat, parsed: bool, body: string)

  /** Longer lines end the scan with an error. */
  const MAX_RECORD: nat := 0x10_0000

  predicate Overlong(e: Entry) { e.length >= MAX_RECORD }

  /** Entries the reader passes over without saving a cursor. */
  predicate Skipped(e: Entry) { !e.parsed && !Overlong(e) }

  /** The first entry at or after a position that is not passed over. */
  function NextEntry(book: seq<Entry>, o: nat): (k: nat)
    ensures k >= o
    ensures forall j :: o <= j < k && j < |book| ==> Skipped(book[j])
    ensures k < |book| ==> !Skipped(book[k])
    decreases |book| - o
  {
    if o < |book| && Skipped(book[o]) then NextEntry(book, o + 1) else o
  }

  ghost predicate Fits(src: Source, book: seq<Entry>) {
    && src.stream == Stream.Journal
    && (forall k :: 0 <= k < |book| ==> book[k].cursor == k)
    && (forall o: nat :: src.starts(0, o) == NextEntry(book, o))
    && (forall k: nat {:trigger src.text(Id(Stream.Journal, 0, k, k + 1))} :: k < |book| ==> src.text(Id(Stream.Journal, 0, k, k + 1)) == book[k].body)
  }

  // ---------- what journalctl is asked for ----------

  datatype Selection = AfterCursor(k: nat) | Since(seconds: int) | All | NewOnly

  /** A cursor wins over the watermark, and the watermark over the setting. */
  function Arguments(cursor: Option<nat>, since: int, atBeginning: bool): Selection {
    if cursor.Some? then AfterCursor(cursor.value)
    else if since > 0 then Since(since / 1_000_000)
    else if atBeginning then All
    else NewOnly
  }

  /** The watermark Start leaves behind. */
  function Watermark(cursor: Option<nat>, since: int, atEnd: bool, now: int): int {
    if atEnd && cursor.None? && since == 0 then now else since
  }

  /** The first entry of at least a given time; journalctl seeks to it. */
  function FirstAt(book: seq<Entry>, micros: int, o: nat): (k: nat)
    requires o <= |book|
    ensures o <= k <= |book|
    ensures forall j :: o <= j < k ==> book[j].micros < micros
    ensures k < |book| ==> book[k].micros >= micros
    decreases |book| - o
  {
    if o < |book| && book[o].micros < micros then FirstAt(book, micros, o + 1) else o
  }

  /** The position a selection starts from; printed is how much of the journal existed. */
  function From(book: seq<Entry>, s: Selection, printed: nat): nat
    requires printed <= |book|
  {
    match s
    case AfterCursor(k) => k + 1
    case Since(seconds) => FirstAt(book, seconds * 1_000_000, 0)
    case All => 0
    case NewOnly => printed
  }

  /**
  A start at the end takes every entry from its own instant on, and the first it takes is
  less than a second older; a restart, whatever its clock says, selects the same entries.
  */
  lemma StartSelects(book: seq<Entry>, now: int, later: int, printed: nat, k: nat)
    requires 0 < now && printed <= |book| && k < |book| && book[k].micros >= now
    ensures var since := Watermark(None, 0, true, now);
            var from := From(book, Arguments(None, since, false), printed);
            && from <= k && book[from].micros > now - 1_000_000
            && forall again: nat :: again <= |book| ==> From(book, Arguments(None, Watermark(None, since, true, later), false), again) == from
  {
    WatermarkNeverSkips(book, now, false, printed, k);
  }

  /** Whole seconds never skip an entry of the start instant or later, and go back less than a second. */
  lemma WatermarkNeverSkips(book: seq<Entry>, since: int, atBeginning: bool, printed: nat, k: nat)
    requires since > 0 && printed <= |book| && k < |book| && book[k].micros >= since
    ensures From(book, Arguments(None, since, atBeginning), printed) <= k
    ensures var from := From(book, Arguments(None, since, atBeginning), printed);
            from < |book| && book[from].micros > since - 1_000_000
  {
    assert since / 1_000_000 * 1_000_000 <= since < since / 1_000_000 * 1_000_000 + 1_000_000;
  }

  /** What has no cursor and no watermark is taken from the moment journalctl starts. */
  lemma NewOnlyIff(cursor: Option<nat>, since: int, atEnd: bool, now: int)
    requires since >= 0
    ensures Arguments(cursor, Watermark(cursor, since, atEnd, now), !atEnd).NewOnly?
            <==> cursor.None? && atEnd && since == 0 && now <= 0
  {
  }

  /** The entries printed follow one another from a position on. */
  ghost predicate Printed(book: seq<Entry>, from: nat, input: seq<Entry>) {
    from + |input| <= |book| && forall i :: 0 <= i < |input| ==> input[i] == book[from + i]
  }

  /** No entry is overlong, and those that can be parsed are committed: kept by the ledger, or refused by the encoder. */
  ghost predicate Recorded(src: Source, book: seq<Entry>, l: Ledger, from: nat, to: nat) {
    && to <= |book|
    && forall k | from <= k < to ::
         !Overlong(book[k]) && (book[k].parsed ==> RecordOf(src, Id(Stream.Journal, 0, k, k + 1)) in l)
  }

  lemma RecordedOn(src: Source, book: seq<Entry>, l: Ledger, m: Ledger, from: nat, mid: nat, to: nat)
    requires Recorded(src, book, l, from, mid) && l <= m && Recorded(src, book, m, mid, to)
    ensures Recorded(src, book, m, from, to)
  {
    forall k | from <= k < to
      ensures !Overlong(book[k]) && (book[k].parsed ==> RecordOf(src, Id(Stream.Journal, 0, k, k + 1)) in m)
    {
    }
  }

  /** Every delivery of an entry, over every run, says what the entry says. */
  lemma DeliversEntries(src: Source, book: seq<Entry>, offset: nat, run: seq<Action>, k: nat)
    requires Fits(src, book) && Regular(src) && Legal(src, First(offset), run)
    requires var w := Run(src, First(offset), run); k < |w.remote| && w.remote[k].stream == src.stream
    ensures var w := Run(src, First(offset), run);
            var id := w.remote[k];
            && |w.heard| == |w.remote|
            && (id.gen == 0 && id.end == id.start + 1 <= |book| ==> w.heard[k] == book[id.start].body)
  {
    SaysItsBytes(src, offset, run);
    var id := Run(src, First(offset), run).remote[k];
    if id.gen == 0 && id.end == id.start + 1 <= |book| {
      assert id == Id(Stream.Journal, 0, id.start, id.start + 1);
    }
  }

  class JournalReader {
    const atEnd: bool
    const since: int
    const link: Link
    ghost const book: seq<Entry>
    var cursor: Option<nat>
    var remembered: Option<Id>
    ghost var failed: bool

    /** Take up the journal where the checkpoint left it, its watermark durable. */
    constructor (atEnd: bool, since: int, cursor: Option<nat>, remembered: Option<Id>, link: Link, ghost book: seq<Entry>)
      requires link.Linked() && Fits(link.src, book) && link.w.base != [] && remembered == link.w.memory.id
      requires GenOf(link.w.base) == 0 && !Arguments(cursor, since, !atEnd).NewOnly? && !link.w.hold.Stuck?
      requires OffsetOf(link.w.base) == From(book, Arguments(cursor, since, !atEnd), 0)
      ensures Valid() && this.link == link && this.book == book
    {
      this.atEnd, this.since, this.cursor, this.remembered, this.link, this.book := atEnd, since, cursor, remembered, link, book;
      failed := !Settled(link.w);
    }

    ghost function Position(): nat
      reads this, link`w, link`run
    {
      if link.w.base == [] then 0 else OffsetOf(link.w.base)
    }

    /** Standing, not unfolded where Trace is not mentioned. */
    ghost predicate Valid()
      reads this, link`w, link`run
    {
      forall k: nat {:trigger Look(StandKey, k)} :: Look(StandKey, k) ==> Standing(k)
    }

    /** The cursor, or where none is saved the selection, is the position committed. */
    ghost predicate Standing(key: nat)
      reads this, link`w, link`run
    {
      && link.Linked() && Fits(link.src, book) && remembered == link.w.memory.id
      && link.w.base != [] && GenOf(link.w.base) == 0 && !link.w.hold.Stuck?
      && !Arguments(cursor, since, !atEnd).NewOnly?
      && Position() == From(book, Arguments(cursor, since, !atEnd), 0)
      && (!failed ==> Settled(link.w))
    }

    /** Start refuses to go on while the remembered admission cannot be activated. */
    method Recover() returns (ok: bool)
      requires Valid()
      modifies this, link
      ensures Valid() && link.w.base == old(link.w).base && cursor == old(cursor)
      ensures link.faults == old(link.faults) + if ok then 0 else 1
      ensures ok && remembered.Some? ==> !failed
    {
      assert Look(StandKey, 0);
      ok := true;
      if remembered.Some? {
        ok := link.ActivateRecord(remembered.value);
        if ok { failed := false; }
      }
    }

    /** Save the cursor of an admitted entry; a cursor that cannot be saved is taken back. */
    method SaveCursor(k: nat, id: Id) returns (ok: bool)
      requires Valid() && k == NextEntry(book, Position()) && id == Id(Stream.Journal, 0, k, k + 1)
      requires Offered(link.src, link.w, id)
      modifies this`cursor, this`remembered, link
      ensures link.Linked() && remembered == link.w.memory.id
      ensures ok ==> cursor == Some(k) && remembered == Some(id)
      ensures !ok ==> cursor == old(cursor) && remembered == old(remembered) && link.w.base == old(link.w.base)
      ensures ok ==> link.w.base != [] && GenOf(link.w.base) == 0 && Position() == k + 1
      ensures ok ==> old(link.w.base) <= link.w.base && RecordOf(link.src, id) in link.w.base
      ensures !link.w.hold.Stuck? && link.faults == old(link.faults) + if ok then 0 else 1
      ensures !failed ==> link.w.quiet == old(link.w.quiet) && (!ok ==> Settled(link.w))
    {
      assert Look(StandKey, 0);
      var before, admission := cursor, remembered;
      cursor, remembered := Some(k), Some(id);
      ghost var l := link.w.base + Moves(link.src, link.w, Take(id));
      assert l[|l| - 1] == RecordOf(link.src, id);
      ok := link.SaveCheckpoint(Take(id));
      if !ok {
        cursor, remembered := before, admission;
      }
    }

    /** Admit an entry, save its cursor, activate it. */
    method TakeEntry(k: nat, body: string) returns (ok: bool)
      requires Valid() && k == NextEntry(book, Position()) && k < |book| && body == book[k].body
      modifies this, link
      ensures Valid() && old(link.w.base) <= link.w.base
      ensures link.faults == old(link.faults) + if ok then 0 else 1
      ensures ok ==> Position() == k + 1
      ensures Position() == old(Position()) || (Position() == k + 1 && RecordOf(link.src, Id(Stream.Journal, 0, k, k + 1)) in link.w.base)
      ensures old(failed) ==> failed
      ensures ok ==> failed == old(failed)
      ensures !failed ==> link.w.quiet == old(link.w.quiet)
    {
      assert Look(StandKey, 0);
      var id := Id(Stream.Journal, 0, k, k + 1);
      ok := link.AdmitRecord(id, body);
      if !ok { return; }
      ok := SaveCursor(k, id);
      if !ok { return; }
      ok := link.ActivateRecord(id);
      if !ok { failed := true; }
    }

    /** One printed entry: an overlong one ends the scan, an unparseable one is passed over. */
    method TakePrinted(ghost at: nat, e: Entry) returns (ok: bool)
      requires Valid() && at < |book| && e == book[at]
      requires Position() <= at && NextEntry(book, Position()) == NextEntry(book, at)
      modifies this, link
      ensures Valid() && old(Position()) <= Position() <= at + 1 && old(link.w.base) <= link.w.base
      ensures Recorded(link.src, book, link.w.base, old(Position()), Position())
      ensures Overlong(e) ==> !ok && Position() <= at
      ensures old(link.faults) <= link.faults && (link.faults == old(link.faults) <==> ok || Overlong(e))
      ensures ok ==> NextEntry(book, Position()) == NextEntry(book, at + 1)
      ensures old(failed) ==> failed
      ensures !failed ==> link.w.quiet == old(link.w.quiet)
    {
      if Overlong(e) {
        return false;
      }
      ok := true;
      if e.parsed {
        assert Look(StandKey, 0);
        ok := TakeEntry(e.cursor, e.body);
      }
    }

    /**
    Consume what journalctl prints.  The cursor passes no overlong entry, and every entry
    it passes that can be parsed is committed; unless a call fails or an entry is overlong,
    it passes them all.
    */
    method Consume(ghost from: nat, input: seq<Entry>) returns (ok: bool)
      requires Valid() && from == Position() && Printed(book, from, input)
      modifies this, link
      ensures Valid() && from <= Position() <= from + |input| && old(link.w.base) <= link.w.base
      ensures Recorded(link.src, book, link.w.base, from, Position())
      ensures ok ==> NextEntry(book, Position()) >= from + |input|
      ensures old(link.faults) <= link.faults
      ensures ok <==> link.faults == old(link.faults) && forall j :: 0 <= j < |input| ==> !Overlong(input[j])
      ensures old(failed) ==> failed
      ensures !failed ==> link.w.quiet == old(link.w.quiet)
    {
      ok := TakeAll(from, input);
      if ok { ok := link.Answers(); }
    }

    /** The printed entries, one after another, until one is overlong or cannot be taken. */
    method TakeAll(ghost from: nat, input: seq<Entry>) returns (ok: bool)
      requires Valid() && from == Position() && Printed(book, from, input)
      modifies this, link
      ensures Valid() && from <= Position() <= from + |input| && old(link.w.base) <= link.w.base
      ensures Recorded(link.src, book, link.w.base, from, Position())
      ensures ok ==> NextEntry(book, Position()) >= from + |input|
      ensures old(link.faults) <= link.faults
      ensures ok <==> link.faults == old(link.faults) && forall j :: 0 <= j < |input| ==> !Overlong(input[j])
      ensures old(failed) ==> failed
      ensures !failed ==> link.w.quiet == old(link.w.quiet)
    {
      var i := 0;
      ghost var at := from;
      while i < |input|
        invariant 0 <= i <= |input| && at == from + i && Valid()
        invariant from <= Position() <= at && old(link.w.base) <= link.w.base
        invariant NextEntry(book, Position()) == NextEntry(book, at)
        invariant Recorded(link.src, book, link.w.base, from, Position())
        invariant link.faults == old(link.faults) && forall j :: 0 <= j < i ==> !Overlong(input[j])
        invariant old(failed) ==> failed
        invariant !failed ==> link.w.quiet == old(link.w.quiet)
      {
        ok := TakeNext(from, at, input[i]);
        if !ok { return; }
        i, at := i + 1, at + 1;
      }
      ok := true;
    }

    /** One more printed entry, added to those committed since from. */
    method TakeNext(ghost from: nat, ghost at: nat, e: Entry) returns (ok: bool)
      requires Valid() && at < |book| && e == book[at]
      requires from <= Position() <= at && NextEntry(book, Position()) == NextEntry(book, at)
      requires Recorded(link.src, book, link.w.base, from, Position())
      modifies this, link
      ensures Valid() && from <= Position() <= at + 1 && old(link.w.base) <= link.w.base
      ensures Recorded(link.src, book, link.w.base, from, Position())
      ensures ok ==> NextEntry(book, Position()) == NextEntry(book, at + 1)
      ensures Overlong(e) ==> !ok
      ensures old(link.faults) <= link.faults && (link.faults == old(link.faults) <==> ok || Overlong(e))
      ensures old(failed) ==> failed
      ensures !failed ==> link.w.quiet == old(link.w.quiet)
    {
      ok := TakePrinted(at, e);
      RecordedOn(link.src, book, old(link.w.base), link.w.base, from, old(Position()), Position());
    }

    /** One life of a journalctl process, asked for what the cursor or the watermark says. */
    method Round(journalctl: Selection -> seq<Entry>) returns (ok: bool)
      requires Valid()
      requires var s := Arguments(cursor, since, !atEnd); Printed(book, From(book, s, 0), journalctl(s))
      modifies this, link
      ensures Valid() && old(Position()) <= Position() && old(link.w.base) <= link.w.base
      ensures Recorded(link.src, book, link.w.base, old(Position()), Position())
      ensures var input := journalctl(old(Arguments(cursor, since, !atEnd)));
              ok <==> link.faults == old(link.faults) && forall j :: 0 <= j < |input| ==> !Overlong(input[j])
      ensures !old(failed) && !failed ==> link.w.quiet == old(link.w.quiet)
    {
      ghost var from := Position();
      assert Look(StandKey, 0);
      var input := journalctl(Arguments(cursor, since, !atEnd));
      ok := Consume(from, input);
    }
  }

  /** The stream of the journal is regular. */
  lemma FitsRegular(src: Source, book: seq<Entry>, g: nat, o: nat)
    requires Fits(src, book)
    ensures src.starts(0, o) >= o && src.starts(0, src.starts(0, o)) == src.starts(0, o)
  {
    NextEntryStays(book, o);
  }

  lemma {:induction false} NextEntryStays(book: seq<Entry>, o: nat)
    ensures NextEntry(book, NextEntry(book, o)) == NextEntry(book, o)
    decreases |book| - o
  {
    if o < |book| && Skipped(book[o]) { NextEntryStays(book, o + 1); }
  }
}
