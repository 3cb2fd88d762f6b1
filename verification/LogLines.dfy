/**
Lines of a file: reading one, rejecting one, and grouping several.
*/
module LogLines {
  import opened Storage

  /** Settings of a source; repair replaces invalid UTF-8, opens tells a group's first line, timeout ends a group. */
  datatype Config = Config(
    multiline: bool,
    maxLine: nat,
    maxLines: nat,
    maxBytes: nat,
    timeout: int,
    repair: string -> string,
    opens: string -> bool)

  /** The end of the line at an offset, newline included, if it is complete. */
  function LineEnd(b: string, o: nat): (e: Option<nat>)
    ensures e.Some? ==> o < e.value <= |b| && b[e.value - 1] == '\n' && '\n' !in b[o..e.value - 1]
    ensures e.None? && o <= |b| ==> '\n' !in b[o..]
    decreases |b| - o
  {
    if o >= |b| then None
    else if b[o] == '\n' then Some(o + 1)
    else
      var rest := LineEnd(b, o + 1);
      assert rest.Some? ==> b[o..rest.value - 1] == [b[o]] + b[o + 1..rest.value - 1];
      assert b[o..] == [b[o]] + b[o + 1..];
      rest
  }

  /** The first newline is the only one that can end the line. */
  lemma {:induction false} LineEndUnique(b: string, o: nat, e: nat)
    requires o < e <= |b| && b[e - 1] == '\n' && '\n' !in b[o..e - 1]
    ensures LineEnd(b, o) == Some(e)
    decreases e - o
  {
    if o + 1 < e {
      assert b[o..e - 1] == [b[o]] + b[o + 1..e - 1];
      LineEndUnique(b, o + 1, e);
    }
  }

  lemma {:induction false} NoLine(b: string, o: nat)
    requires o <= |b| && '\n' !in b[o..]
    ensures LineEnd(b, o).None?
    decreases |b| - o
  {
    if o < |b| {
      assert b[o..] == [b[o]] + b[o + 1..];
      NoLine(b, o + 1);
    }
  }

  lemma LineEndPrefix(a: string, b: string, o: nat)
    requires a <= b && LineEnd(a, o).Some?
    ensures LineEnd(b, o) == LineEnd(a, o)
  {
    var e := LineEnd(a, o).value;
    assert a[o..e - 1] == b[o..e - 1];
    LineEndUnique(b, o, e);
  }

  /** Drop the newline, and a carriage return before it. */
  function Strip(line: string): string {
    var s := if line != "" && line[|line| - 1] == '\n' then line[..|line| - 1] else line;
    if s != "" && s[|s| - 1] == '\r' then s[..|s| - 1] else s
  }

  /** A line loses its line ending, of either kind, and nothing else. */
  lemma StripEndings(line: string)
    requires line == "" || line[|line| - 1] !in {'\n', '\r'}
    ensures Strip(line) == Strip(line + "\n") == Strip(line + "\r\n") == line
  {
    assert (line + "\r\n")[..|line| + 1] == line + "\r";
  }

  function Clean(c: Config, line: string): string { c.repair(Strip(line)) }

  /** Lines over the bound are rejected, and in plain mode empty ones too. */
  predicate Discarded(c: Config, b: string, o: nat, e: nat)
    requires o <= e <= |b|
  {
    e - o > c.maxLine || (!c.multiline && Clean(c, b[o..e]) == "")
  }

  /** Where the next record starts: past complete lines that are rejected. */
  function NextStart(c: Config, b: string, o: nat): (s: nat)
    ensures s >= o
    decreases |b| - o
  {
    var e := LineEnd(b, o);
    if e.Some? && Discarded(c, b, o, e.value) then NextStart(c, b, e.value) else o
  }

  /** The cleaned lines of a range, rejected lines left out. */
  function Lines(c: Config, b: string, s: nat, e: nat): seq<string>
    requires s <= e <= |b|
    decreases e - s
  {
    var l := LineEnd(b, s);
    if l.None? || l.value > e then []
    else (if Discarded(c, b, s, l.value) then [] else [Clean(c, b[s..l.value])]) + Lines(c, b, l.value, e)
  }

  function Join(lines: seq<string>): string {
    if lines == [] then ""
    else if |lines| == 1 then lines[0]
    else Join(lines[..|lines| - 1]) + "\n" + lines[|lines| - 1]
  }

  /** Some complete line ends at e, counting from s. */
  ghost predicate Boundary(b: string, s: nat, e: nat)
    decreases |b| - s
  {
    s == e || (LineEnd(b, s).Some? && LineEnd(b, s).value <= e && Boundary(b, LineEnd(b, s).value, e))
  }

  /** One more line at the end of a range of whole lines. */
  lemma {:induction false} LinesExtend(c: Config, b: string, s: nat, m: nat, e: nat)
    requires s <= m <= |b| && Boundary(b, s, m) && LineEnd(b, m) == Some(e)
    ensures Boundary(b, s, e)
    ensures Lines(c, b, s, e) == Lines(c, b, s, m) + (if Discarded(c, b, m, e) then [] else [Clean(c, b[m..e])])
    decreases |b| - s
  {
    if s == m {
      assert LineEnd(b, e).Some? ==> LineEnd(b, e).value > e;
      assert LineEnd(b, s).Some? ==> LineEnd(b, s).value > s;
    } else {
      LinesExtend(c, b, LineEnd(b, s).value, m, e);
    }
  }

  /** Where the next record starts does not move by starting there. */
  lemma {:induction false} NextStartStays(c: Config, b: string, o: nat)
    ensures NextStart(c, b, NextStart(c, b, o)) == NextStart(c, b, o)
    decreases |b| - o
  {
    var e := LineEnd(b, o);
    if e.Some? && Discarded(c, b, o, e.value) { NextStartStays(c, b, e.value); }
  }

  /** Whole lines before the next record hold no content. */
  lemma {:induction false} NothingBefore(c: Config, b: string, o: nat, e: nat)
    requires o <= e <= |b| && Boundary(b, o, e) && e <= NextStart(c, b, o)
    ensures Lines(c, b, o, e) == []
    decreases |b| - o
  {
    if o < e { NothingBefore(c, b, LineEnd(b, o).value, e); }
  }

  /** What has been read of a line that has not ended yet. */
  ghost predicate Reading(file: string, offset: nat, max: nat, out: string, pos: nat, tooLarge: bool) {
    && offset <= pos <= |file| && '\n' !in file[offset..pos]
    && (tooLarge <==> pos - offset > max)
    && out == file[offset..if tooLarge then offset + max else pos]
  }

  /** One chunk: up to its end, or to the newline in it. */
  method ReadChunk(file: string, offset: nat, max: nat, before: string, base: nat, large: bool)
    returns (out: string, pos: nat, tooLarge: bool, complete: bool)
    requires Reading(file, offset, max, before, base, large)
    ensures complete ==> offset < pos <= |file| && LineEnd(file, offset) == Some(pos)
    ensures complete ==> (tooLarge <==> pos - offset > max) && out == file[offset..if tooLarge then offset + max else pos]
    ensures !complete ==> Reading(file, offset, max, out, pos, tooLarge)
    ensures !complete ==> pos == if base + 4096 <= |file| then base + 4096 else |file|
  {
    var buf := file[base..if base + 4096 <= |file| then base + 4096 else |file|];
    out, pos, tooLarge, complete := before, base, large, false;
    var i := 0;
    while i < |buf|
      invariant 0 <= i <= |buf| && pos == base + i && !complete
      invariant Reading(file, offset, max, out, pos, tooLarge)
    {
      assert buf[i] == file[pos];
      assert file[offset..pos + 1] == file[offset..pos] + [file[pos]];
      pos := pos + 1;
      if !tooLarge {
        if |out| >= max {
          tooLarge := true;
        } else {
          out := out + [buf[i]];
        }
      }
      if buf[i] == '\n' {
        LineEndUnique(file, offset, pos);
        complete := true;
        return;
      }
      i := i + 1;
    }
  }

  /**
  Read one line in 4096-byte chunks, keeping at most max bytes of it.  The line and
  its end do not depend on how chunks fall.
  */
  method ReadLine(file: string, offset: nat, max: nat) returns (out: string, pos: nat, complete: bool, tooLarge: bool)
    requires offset <= |file|
    ensures complete <==> LineEnd(file, offset).Some?
    ensures complete ==> LineEnd(file, offset) == Some(pos)
    ensures !complete ==> pos == |file|
    ensures tooLarge <==> pos - offset > max
    ensures out == file[offset..if tooLarge then offset + max else pos]
  {
    out, pos, tooLarge, complete := "", offset, false, false;
    while true
      invariant Reading(file, offset, max, out, pos, tooLarge) && !complete
      decreases |file| - pos
    {
      var base := pos;
      out, pos, tooLarge, complete := ReadChunk(file, offset, max, out, base, tooLarge);
      if complete { return; }
      if pos == |file| {
        assert file[offset..pos] == file[offset..];
        NoLine(file, offset);
        return;
      }
    }
  }
}
