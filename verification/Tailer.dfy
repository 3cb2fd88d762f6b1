/**
The file tailer: one source file, followed across appends, truncations, failed
admissions and failed checkpoints.
*/
module Tailer {
  import opened Keys
  import opened Storage
  import opened LogQueue
  import opened LogLines
  import opened Handoff
  import opened HandoffOrder
  import opened HandoffRuns
  import opened Reader

  /** The lines gathered for a group that is not complete yet. */
  datatype Pending = Pending(body: string, start: nat, end: nat, lines: nat)

  const EMPTY := Pending("", 0, 0, 0)

  /** The lines of a generation: where reading began, groups handed over, lines held, and which groups time ended. */
  datatype Story = Story(origin: nat, out: seq<seq<string>>, held: seq<string>, timed: set<nat>)

  /** A record admitted and committed, with the body it was given. */
  datatype Given = Given(start: nat, end: nat, body: string)

  /** Of records that begin at one place the last one stands: it is the group, offered again. */
  function Latest(given: seq<Given>): seq<Given> {
    if given == [] then []
    else
      var before, last := Latest(given[..|given| - 1]), given[|given| - 1];
      if before != [] && before[|before| - 1].start == last.start then before[..|before| - 1] + [last] else before + [last]
  }

  /**
  The stream of a file: generation by generation, all the bytes it will ever hold.  A
  record says the lines of its range, joined.
  */
  ghost predicate Fits(src: Source, c: Config, book: nat -> string) {
    forall k: nat {:trigger Look(StandKey, k)} :: Look(StandKey, k) ==>
      && (forall g: nat, o: nat :: src.starts(g, o) == NextStart(c, book(g), o))
      && (forall g: nat, s: nat, e: nat {:trigger src.text(Id(src.stream, g, s, e))} ::
            s <= e <= |book(g)| ==> src.text(Id(src.stream, g, s, e)) == Join(Lines(c, book(g), s, e)))
  }

  /** Whatever the remote ingests of a file, over every run, is the lines of a range of it, joined. */
  lemma DeliversLines(src: Source, c: Config, book: nat -> string, offset: nat, run: seq<Action>, k: nat)
    requires Fits(src, c, book) && Regular(src) && Legal(src, First(offset), run)
    requires var w := Run(src, First(offset), run); k < |w.remote| && w.remote[k].stream == src.stream
    ensures var w := Run(src, First(offset), run);
            var id := w.remote[k];
            |w.heard| == |w.remote|
            && (id.start <= id.end <= |book(id.gen)| ==> w.heard[k] == Join(Lines(c, book(id.gen), id.start, id.end)))
  {
    SaysItsBytes(src, offset, run);
    assert Look(StandKey, 0);
    var id := Run(src, First(offset), run).remote[k];
    assert id == Id(src.stream, id.gen, id.start, id.end);
  }

  /** The stream of a file is regular. */
  lemma FitsRegular(src: Source, c: Config, book: nat -> string)
    requires Fits(src, c, book)
    ensures Regular(src)
  {
    assert Look(StandKey, 0);
    forall g: nat, o: nat
      ensures src.starts(g, o) >= o && src.starts(g, src.starts(g, o)) == src.starts(g, o)
    {
      NextStartStays(c, book(g), o);
    }
  }

  /** What a ledger calls rejected are whole lines without content. */
  lemma RejectedHoldNothing(src: Source, c: Config, book: nat -> string, l: Ledger, e: Event)
    requires Fits(src, c, book) && Sourced(src, l) && e in l && e.Rejected?
    requires e.start <= e.end <= |book(e.gen)| && Boundary(book(e.gen), e.start, e.end)
    ensures Lines(c, book(e.gen), e.start, e.end) == []
  {
    assert Look(StandKey, 0);
    NothingBefore(c, book(e.gen), e.start, e.end);
  }

  function Flat(groups: seq<seq<string>>): seq<string> {
    if groups == [] then [] else Flat(groups[..|groups| - 1]) + groups[|groups| - 1]
  }

  /** All the lines of a story, in the order they went into groups. */
  function Told(t: Story): seq<string> { Flat(t.out) + t.held }

  /** What a group may hold; a group of one line may exceed the byte bound. */
  ghost predicate GroupOk(c: Config, g: seq<string>) {
    && 1 <= |g|
    && (!c.multiline ==> |g| == 1)
    && (c.multiline ==> |g| <= c.maxLines)
    && (|g| >= 2 ==> |Join(g)| <= c.maxBytes)
    && forall k :: 1 <= k < |g| ==> !c.opens(g[k])
  }

  /** A range is whole lines, and these are the ones not rejected. */
  ghost predicate Reads(c: Config, b: string, s: nat, e: nat, lines: seq<string>) {
    s <= e <= |b| && Boundary(b, s, e) && Lines(c, b, s, e) == lines
  }

  /**
  Where the positions stand: o is the position committed, at is how far lines were
  consumed.  A group that is stuck was committed, and may have grown since.
  */
  ghost predicate Placed(c: Config, b: string, o: nat, stuck: bool, committed: nat, at: nat, p: Pending) {
    && committed <= at <= |b|
    && if p.lines == 0 then
         !stuck && committed == o && NextStart(c, b, at) == NextStart(c, b, o)
       else
         && c.multiline && p.start < p.end <= at && NextStart(c, b, p.end) == NextStart(c, b, at)
         && if stuck then p.start < o <= p.end && (p.end == o || p.end > NextStart(c, b, o)) else p.start == NextStart(c, b, o)
  }

  /** The groups handed over, then the lines held, are the lines consumed, in order. */
  ghost predicate Regrouped(c: Config, b: string, committed: nat, at: nat, p: Pending, t: Story) {
    && (forall g :: g in t.out ==> GroupOk(c, g))
    && Reads(c, b, t.origin, at, Told(t))
    && Reads(c, b, t.origin, if p.lines == 0 then committed else p.end, Told(t))
    && |t.held| == p.lines
    && (p.lines > 0 ==>
          && GroupOk(c, t.held) && p.body == Join(t.held)
          && Reads(c, b, p.start, p.end, t.held) && Reads(c, b, p.start, at, t.held))
  }

  ghost predicate Stood(key: nat, c: Config, b: string, o: nat, stuck: bool, committed: nat, at: nat, p: Pending, t: Story) {
    Placed(c, b, o, stuck, committed, at, p) && Regrouped(c, b, committed, at, p, t)
  }

  /** Everything before at was handed over, is held, or was rejected. */
  ghost predicate Stands(c: Config, b: string, o: nat, stuck: bool, committed: nat, at: nat, p: Pending, t: Story) {
    forall k: nat {:trigger Look(LineKey, k)} :: Look(LineKey, k) ==> Stood(k, c, b, o, stuck, committed, at, p, t)
  }

  /** A body is a whole group: the lines of its range, joined. */
  ghost predicate IsGroup(c: Config, b: string, s: nat, e: nat, body: string) {
    forall k: nat {:trigger Look(LineKey, k)} :: Look(LineKey, k) ==>
      s <= e <= |b| && Boundary(b, s, e) && GroupOk(c, Lines(c, b, s, e)) && body == Join(Lines(c, b, s, e))
  }

  /** The bodies given are the groups, joined. */
  ghost predicate Matches(l: seq<Given>, out: seq<seq<string>>) {
    |out| <= |l| && forall k :: 0 <= k < |out| ==> l[k].body == Join(out[k])
  }

  lemma MatchesOn(l: seq<Given>, out: seq<seq<string>>, x: Given, g: seq<string>)
    requires Matches(l, out) && |l| == |out|
    ensures Matches(l + [x], out) && (x.body == Join(g) ==> Matches(l + [x], out + [g]))
  {
  }

  /** What the records committed say: each is a whole group, and those that stand are the groups handed over. */
  ghost predicate Chronicle(key: nat, c: Config, b: string, given: seq<Given>, o: nat, stuck: bool, p: Pending, out: seq<seq<string>>) {
    && (forall x :: x in given ==> x.start < x.end <= o && IsGroup(c, b, x.start, x.end, x.body))
    && (stuck ==> given != [] && given[|given| - 1].start == p.start && given[|given| - 1].end == o)
    && |Latest(given)| == |out| + (if stuck then 1 else 0) && Matches(Latest(given), out)
  }

  ghost predicate Tells(c: Config, b: string, given: seq<Given>, o: nat, stuck: bool, p: Pending, out: seq<seq<string>>) {
    forall k: nat {:trigger Look(GivenKey, k)} :: Look(GivenKey, k) ==> Chronicle(k, c, b, given, o, stuck, p, out)
  }

  lemma StandFacts(c: Config, b: string, o: nat, stuck: bool, committed: nat, at: nat, p: Pending, t: Story)
    requires Stands(c, b, o, stuck, committed, at, p, t)
    ensures committed <= at <= |b|
    ensures p.lines == 0 ==> !stuck && committed == o && t.held == []
    ensures p.lines > 0 ==> c.multiline && p.start < p.end <= at
    ensures p.lines > 0 ==> IsGroup(c, b, p.start, p.end, p.body) && p.body == Join(t.held)
    ensures p.lines > 0 && !stuck ==> p.start == NextStart(c, b, o)
    ensures stuck ==> p.lines > 0
    ensures stuck ==> p.start < o <= p.end && (p.end == o || p.end > NextStart(c, b, o))
  {
    assert Look(LineKey, 0);
  }

  lemma {:induction false} LatestLast(given: seq<Given>)
    requires given != []
    ensures var l := Latest(given); l != [] && l[|l| - 1] == given[|given| - 1]
  {
  }

  lemma LatestOn(given: seq<Given>, x: Given)
    ensures var l := Latest(given);
            Latest(given + [x]) == if given != [] && given[|given| - 1].start == x.start then l[..|l| - 1] + [x] else l + [x]
  {
    assert (given + [x])[..|given|] == given;
    if given != [] { LatestLast(given); }
  }

  /** What is told does not depend on how far the group held has grown. */
  lemma TellSame(c: Config, b: string, given: seq<Given>, o: nat, stuck: bool, p: Pending, out: seq<seq<string>>, q: Pending)
    requires Tells(c, b, given, o, stuck, p, out) && (stuck ==> q.start == p.start)
    ensures Tells(c, b, given, o, stuck, q, out)
  {
    assert Look(GivenKey, 0);
  }

  /** One more record is given: a new group, or the one stuck. */
  ghost predicate Adds(c: Config, b: string, given: seq<Given>, o: nat, stuck: bool, p: Pending, x: Given) {
    && x.start < x.end && o <= x.end && IsGroup(c, b, x.start, x.end, x.body)
    && if stuck then x.start == p.start else o <= x.start
  }

  lemma GivenAdds(c: Config, b: string, given: seq<Given>, o: nat, stuck: bool, p: Pending, out: seq<seq<string>>, x: Given)
    requires Tells(c, b, given, o, stuck, p, out) && Adds(c, b, given, o, stuck, p, x)
    ensures forall y :: y in given + [x] ==> y.start < y.end <= x.end && IsGroup(c, b, y.start, y.end, y.body)
    ensures given != [] ==> given[|given| - 1].start < o && (given[|given| - 1].start == x.start <==> stuck)
    ensures stuck ==> given != []
  {
    assert Look(GivenKey, 0);
    if given != [] { assert given[|given| - 1] in given; }
  }

  lemma GivenLatest(c: Config, b: string, given: seq<Given>, o: nat, stuck: bool, p: Pending, out: seq<seq<string>>)
    requires Tells(c, b, given, o, stuck, p, out)
    ensures |Latest(given)| == |out| + (if stuck then 1 else 0) && Matches(Latest(given), out)
  {
    assert Look(GivenKey, 0);
  }

  /** The groups handed over, and then the record given. */
  lemma LatestAdds(c: Config, b: string, given: seq<Given>, o: nat, stuck: bool, p: Pending, out: seq<seq<string>>, x: Given)
    requires Tells(c, b, given, o, stuck, p, out) && Adds(c, b, given, o, stuck, p, x)
    ensures |Latest(given)| >= |out| && Matches(Latest(given)[..|out|], out)
    ensures Latest(given + [x]) == Latest(given)[..|out|] + [x]
    ensures forall y :: y in given + [x] ==> y.start < y.end <= x.end && IsGroup(c, b, y.start, y.end, y.body)
  {
    GivenAdds(c, b, given, o, stuck, p, out, x);
    GivenLatest(c, b, given, o, stuck, p, out);
    LatestOn(given, x);
    assert !stuck ==> Latest(given)[..|out|] == Latest(given);
  }

  /** If its activation fails it is told as stuck. */
  lemma TellStuck(c: Config, b: string, given: seq<Given>, o: nat, stuck: bool, p: Pending, out: seq<seq<string>>, x: Given)
    requires Tells(c, b, given, o, stuck, p, out) && Adds(c, b, given, o, stuck, p, x) && x.start == p.start
    ensures Tells(c, b, given + [x], x.end, true, p, out)
  {
    LatestAdds(c, b, given, o, stuck, p, out, x);
    MatchesOn(Latest(given)[..|out|], out, x, []);
  }

  /** Otherwise it is one more of the groups handed over. */
  lemma TellOut(c: Config, b: string, given: seq<Given>, o: nat, stuck: bool, p: Pending, out: seq<seq<string>>,
                x: Given, g: seq<string>)
    requires Tells(c, b, given, o, stuck, p, out) && Adds(c, b, given, o, stuck, p, x) && x.body == Join(g)
    ensures Tells(c, b, given + [x], x.end, false, EMPTY, out + [g])
  {
    LatestAdds(c, b, given, o, stuck, p, out, x);
    MatchesOn(Latest(given)[..|out|], out, x, g);
  }

  /** Passing rejected lines tells nothing. */
  lemma TellLater(c: Config, b: string, given: seq<Given>, o: nat, later: nat, p: Pending, out: seq<seq<string>>)
    requires Tells(c, b, given, o, false, p, out) && o <= later
    ensures Tells(c, b, given, later, false, p, out)
  {
    assert Look(GivenKey, 0);
  }

  // ---------- one line ----------

  lemma ReadsOn(c: Config, b: string, s: nat, at: nat, e: nat, lines: seq<string>)
    requires Reads(c, b, s, at, lines) && LineEnd(b, at) == Some(e)
    ensures Reads(c, b, s, e, lines + (if Discarded(c, b, at, e) then [] else [Clean(c, b[at..e])]))
  {
    LinesExtend(c, b, s, at, e);
  }

  lemma ReadsNone(c: Config, b: string, s: nat)
    requires s <= |b|
    ensures Reads(c, b, s, s, [])
  {
    assert LineEnd(b, s).Some? ==> LineEnd(b, s).value > s;
  }

  lemma FlatOne(out: seq<seq<string>>, g: seq<string>)
    ensures Flat(out + [g]) == Flat(out) + g
  {
    assert (out + [g])[..|out|] == out;
  }

  lemma Origin(c: Config, b: string, o: nat)
    requires o <= |b|
    ensures Stands(c, b, o, false, o, o, EMPTY, Story(o, [], [], {}))
  {
    ReadsNone(c, b, o);
    assert Told(Story(o, [], [], {})) == [];
  }

  lemma RejectedPlaced(c: Config, b: string, o: nat, stuck: bool, committed: nat, at: nat, e: nat, p: Pending)
    requires Placed(c, b, o, stuck, committed, at, p) && LineEnd(b, at) == Some(e) && Discarded(c, b, at, e)
    ensures NextStart(c, b, e) == NextStart(c, b, at)
    ensures p.lines == 0 ==> NextStart(c, b, e) == NextStart(c, b, o) && o < e
    ensures Placed(c, b, o, stuck, committed, e, p)
    ensures Placed(c, b, if p.lines == 0 then e else o, stuck, e, e, p)
  {
  }

  lemma RejectedRegrouped(c: Config, b: string, committed: nat, at: nat, e: nat, p: Pending, t: Story)
    requires Regrouped(c, b, committed, at, p, t) && LineEnd(b, at) == Some(e) && Discarded(c, b, at, e)
    ensures Regrouped(c, b, committed, e, p, t) && Regrouped(c, b, e, e, p, t)
  {
    ReadsOn(c, b, t.origin, at, e, Told(t));
    assert Told(t) + [] == Told(t);
    if p.lines > 0 {
      ReadsOn(c, b, p.start, at, e, t.held);
      assert t.held + [] == t.held;
    }
  }

  /** Passing a rejected line. */
  lemma PassRejected(c: Config, b: string, o: nat, stuck: bool, committed: nat, at: nat, e: nat, p: Pending, t: Story)
    requires Stands(c, b, o, stuck, committed, at, p, t)
    requires LineEnd(b, at) == Some(e) && Discarded(c, b, at, e)
    ensures NextStart(c, b, e) == NextStart(c, b, at)
    ensures p.lines == 0 ==> NextStart(c, b, e) == NextStart(c, b, o) && o < e
    ensures Stands(c, b, o, stuck, committed, e, p, t)
    ensures Stands(c, b, if p.lines == 0 then e else o, stuck, e, e, p, t)
  {
    assert Look(LineKey, 0);
    RejectedPlaced(c, b, o, stuck, committed, at, e, p);
    RejectedRegrouped(c, b, committed, at, e, p, t);
  }

  /** The line after the group held does not hold the next record either. */
  lemma RejectStarts(c: Config, b: string, o: nat, stuck: bool, committed: nat, at: nat, e: nat, p: Pending, t: Story)
    requires Stands(c, b, o, stuck, committed, at, p, t)
    requires LineEnd(b, at) == Some(e) && Discarded(c, b, at, e)
    ensures p.lines > 0 ==> NextStart(c, b, e) == NextStart(c, b, p.end) && p.end <= e
  {
    assert Look(LineKey, 0);
  }

  /** Handing over a line of its own. */
  lemma PassAlone(c: Config, b: string, o: nat, committed: nat, at: nat, e: nat, p: Pending, t: Story)
    requires Stands(c, b, o, false, committed, at, p, t)
    requires !c.multiline && LineEnd(b, at) == Some(e) && !Discarded(c, b, at, e)
    ensures at == NextStart(c, b, o) && p.lines == 0 && IsGroup(c, b, at, e, Clean(c, b[at..e]))
    ensures Stands(c, b, e, false, e, e, p, t.(out := t.out + [[Clean(c, b[at..e])]]))
  {
    assert Look(LineKey, 0);
    var g := [Clean(c, b[at..e])];
    ReadsNone(c, b, at);
    ReadsOn(c, b, at, at, e, []);
    assert [] + g == g;
    var u := t.(out := t.out + [g]);
    ReadsOn(c, b, t.origin, at, e, Told(t));
    FlatOne(t.out, g);
    assert t.held == [] && Told(t) + g == Told(u);
  }

  /** A story after the group held was handed over. */
  function HandedOver(t: Story): Story { t.(out := t.out + [t.held], held := []) }

  // ---------- why a group ends ----------

  /** A line ends the group before it: it opens one of its own, or the group is full. */
  predicate EndsGroup(c: Config, g: seq<string>, line: string) {
    c.opens(line) || |g| >= c.maxLines || |Join(g)| + 1 + |line| > c.maxBytes
  }

  function Head(lines: seq<string>): Option<string> { if lines == [] then None else Some(lines[0]) }

  /** The line that came after a group handed over, next being the one after the last. */
  function Following(out: seq<seq<string>>, k: nat, next: Option<string>): Option<string>
    requires k < |out|
  {
    if k + 1 < |out| then Head(out[k + 1]) else next
  }

  /** Every group handed over was ended by the line after it, or by time. */
  ghost predicate Reasons(c: Config, out: seq<seq<string>>, timed: set<nat>, next: Option<string>) {
    && (forall k :: k in timed ==> k < |out|)
    && forall k :: 0 <= k < |out| && k !in timed ==>
         Following(out, k, next).Some? && EndsGroup(c, out[k], Following(out, k, next).value)
  }

  /** In multiline mode every group handed over ended for a reason. */
  ghost predicate Reasoned(c: Config, out: seq<seq<string>>, timed: set<nat>, next: Option<string>) {
    forall k: nat {:trigger Look(GroupKey, k)} :: Look(GroupKey, k) ==> c.multiline ==> Reasons(c, out, timed, next)
  }

  lemma ReasonedFacts(c: Config, out: seq<seq<string>>, timed: set<nat>, next: Option<string>)
    requires Reasoned(c, out, timed, next) && c.multiline
    ensures Reasons(c, out, timed, next)
  {
    assert Look(GroupKey, 0);
  }

  /** If time ended every group so far that no line ended, any line may come next. */
  lemma ReasonedAny(c: Config, out: seq<seq<string>>, timed: set<nat>, line: string)
    requires Reasoned(c, out, timed, None)
    ensures Reasoned(c, out, timed, Some(line))
  {
    if c.multiline { ReasonedFacts(c, out, timed, None); }
  }

  /** One more group is handed over, and the next line ended it. */
  lemma ReasonedLine(c: Config, out: seq<seq<string>>, timed: set<nat>, g: seq<string>, line: string)
    requires Reasoned(c, out, timed, Head(g)) && g != [] && EndsGroup(c, g, line)
    ensures Reasoned(c, out + [g], timed, Some(line))
  {
    if c.multiline { ReasonedFacts(c, out, timed, Head(g)); }
  }

  /** One more group is handed over, and time ended it. */
  lemma ReasonedTime(c: Config, out: seq<seq<string>>, timed: set<nat>, g: seq<string>)
    requires Reasoned(c, out, timed, Head(g)) && g != []
    ensures Reasoned(c, out + [g], timed + {|out|}, None)
  {
    if c.multiline { ReasonedFacts(c, out, timed, Head(g)); }
  }

  lemma ToldSame(t: Story)
    ensures Told(HandedOver(t)) == Told(t)
  {
    FlatOne(t.out, t.held);
    assert Told(t) == Told(HandedOver(t));
  }

  /** Handing over the group held; if its activation fails it is committed, and still held. */
  lemma PassGroup(c: Config, b: string, o: nat, stuck: bool, committed: nat, at: nat, p: Pending, t: Story)
    requires Stands(c, b, o, stuck, committed, at, p, t) && p.lines > 0
    ensures Stands(c, b, p.end, false, p.end, at, EMPTY, HandedOver(t))
    ensures Stands(c, b, p.end, true, p.end, at, p, t)
  {
    assert Look(LineKey, 0);
    ToldSame(t);
  }

  function Joined(p: Pending, line: string, start: nat, end: nat): Pending {
    if p.lines == 0 then Pending(line, start, end, 1) else Pending(p.body + "\n" + line, p.start, end, p.lines + 1)
  }

  /** Holding one more line. */
  lemma HoldLine(c: Config, b: string, o: nat, stuck: bool, committed: nat, at: nat, e: nat, p: Pending, t: Story, line: string)
    requires Stands(c, b, o, stuck, committed, at, p, t)
    requires c.multiline && 1 <= c.maxLines && LineEnd(b, at) == Some(e) && !Discarded(c, b, at, e)
    requires line == Clean(c, b[at..e])
    requires p.lines > 0 ==> !c.opens(line) && p.lines < c.maxLines && |p.body| + |line| + 1 <= c.maxBytes
    ensures Stands(c, b, o, stuck, committed, e, Joined(p, line, at, e), t.(held := t.held + [line]))
  {
    assert Look(LineKey, 0);
    var q, u := Joined(p, line, at, e), t.(held := t.held + [line]);
    ReadsOn(c, b, t.origin, at, e, Told(t));
    ToldOn(t, line);
    HeldOn(c, b, at, e, p, t.held, line);
    PlacedOn(c, b, o, stuck, committed, at, e, p, line);
    assert Regrouped(c, b, committed, e, q, u);
  }

  lemma ToldOn(t: Story, line: string)
    ensures Told(t.(held := t.held + [line])) == Told(t) + [line]
  {
    assert Told(t) + [line] == Told(t.(held := t.held + [line]));
  }

  lemma PlacedOn(c: Config, b: string, o: nat, stuck: bool, committed: nat, at: nat, e: nat, p: Pending, line: string)
    requires Placed(c, b, o, stuck, committed, at, p)
    requires c.multiline && LineEnd(b, at) == Some(e) && !Discarded(c, b, at, e)
    ensures Placed(c, b, o, stuck, committed, e, Joined(p, line, at, e))
  {
  }

  lemma HeldOn(c: Config, b: string, at: nat, e: nat, p: Pending, held: seq<string>, line: string)
    requires c.multiline && 1 <= c.maxLines && LineEnd(b, at) == Some(e) && !Discarded(c, b, at, e)
    requires line == Clean(c, b[at..e])
    requires |held| == p.lines
    requires p.lines > 0 ==> Reads(c, b, p.start, at, held) && GroupOk(c, held) && p.body == Join(held)
    requires p.lines > 0 ==> !c.opens(line) && p.lines < c.maxLines && |p.body| + |line| + 1 <= c.maxBytes
    ensures var q := Joined(p, line, at, e);
            Reads(c, b, q.start, e, held + [line]) && GroupOk(c, held + [line]) && q.body == Join(held + [line])
  {
    if p.lines == 0 {
      ReadsNone(c, b, at);
      ReadsOn(c, b, at, at, e, []);
      assert held + [line] == [] + [line] == [line];
    } else {
      ReadsOn(c, b, p.start, at, e, held);
      GroupGrows(c, held, line);
    }
  }

  lemma GroupGrows(c: Config, g: seq<string>, line: string)
    requires c.multiline && GroupOk(c, g) && |g| < c.maxLines
    requires !c.opens(line) && |Join(g)| + |line| + 1 <= c.maxBytes
    ensures GroupOk(c, g + [line]) && Join(g + [line]) == Join(g) + "\n" + line
  {
    assert (g + [line])[..|g|] == g;
  }

  /** Going back to the committed position forgets nothing. */
  lemma BackToCommitted(c: Config, b: string, o: nat, committed: nat, at: nat, p: Pending, t: Story)
    requires Stands(c, b, o, false, committed, at, p, t) && p.lines == 0
    ensures Stands(c, b, o, false, committed, committed, p, t)
  {
    assert Look(LineKey, 0);
  }

  /** A line complete in what the file holds now is a line of the generation. */
  method ReadNext(data: string, offset: nat, max: nat, ghost b: string)
    returns (line: string, end: nat, complete: bool, tooLarge: bool)
    requires offset <= |data| && data <= b
    ensures complete ==> offset < end <= |data| && LineEnd(b, offset) == Some(end) && (tooLarge <==> end - offset > max)
    ensures complete && !tooLarge ==> line == b[offset..end]
    ensures !complete ==> LineEnd(data, offset).None?
  {
    line, end, complete, tooLarge := ReadLine(data, offset, max);
    if complete {
      LineEndPrefix(data, b, offset);
      assert data[offset..end] == b[offset..end];
    }
  }

  /** What a record passed does to the ledger: a new one is taken, and the one stuck taken again. */
  function Passing(w: World, id: Id): Advance {
    if w.hold.Stuck? then Again(id.end) else Take(id)
  }

  lemma PassingMoves(src: Source, w: World, id: Id)
    requires w.base != [] && (w.hold.Stuck? ==> Grown(w.hold.id, id.end) == id)
    ensures Named(w, Passing(w, id)) == Some(id) && HoldAfter(w, Passing(w, id)) == Done(id)
    ensures var l := w.base + Moves(src, w, Passing(w, id));
            GenOf(l) == id.gen && OffsetOf(l) == id.end && RecordOf(src, id) in l && forall e :: e in w.base ==> e in l
  {
    var l := w.base + Moves(src, w, Passing(w, id));
    assert l[|l| - 1] == RecordOf(src, id);
  }

  /** Every record given is in the ledger, or refused there. */
  ghost predicate Recorded(src: Source, g: nat, given: seq<Given>, l: Ledger) {
    forall x :: x in given ==> RecordOf(src, Id(src.stream, g, x.start, x.end)) in l
  }

  /** The ledger moved past one record. */
  ghost predicate Took(src: Source, v: World, w: World, id: Id) {
    forall k: nat {:trigger Look(LineKey, k)} :: Look(LineKey, k) ==>
      v.base != [] && w.base == v.base + Moves(src, v, Passing(v, id))
  }

  lemma TookSame(src: Source, v: World, w: World, x: World, id: Id)
    requires Took(src, v, w, id) && x.base == w.base
    ensures Took(src, v, x, id)
  {
  }

  class Tailer {
    const config: Config
    const stream: Stream
    const link: Link
    ghost const book: nat -> string
    var generation: nat
    var committed: nat
    var readOffset: nat
    var pending: Pending
    var since: int                // when the group held was begun
    var remembered: Option<Id>
    ghost var story: Story
    ghost var given: seq<Given>   // every record of the generation admitted and committed
    ghost var failed: bool        // an activation may have failed since the last that succeeded

    /** Take up a file where its checkpoint left it. */
    constructor (config: Config, stream: Stream, link: Link, generation: nat, offset: nat, remembered: Option<Id>,
                 ghost book: nat -> string)
      requires link.Linked() && Fits(link.src, config, book) && link.src.stream == stream && 1 <= config.maxLines
      requires link.w.base != [] && generation == GenOf(link.w.base) && offset == OffsetOf(link.w.base)
      requires remembered == link.w.memory.id && link.w.hold.Free?
      requires offset <= |book(generation)|
      ensures Valid() && this.config == config && this.stream == stream && this.link == link && this.book == book
      ensures readOffset == offset && pending == EMPTY && story == Story(offset, [], [], {}) && given == []
    {
      this.config, this.stream, this.link, this.generation, this.book := config, stream, link, generation, book;
      committed, readOffset, pending, since, this.remembered := offset, offset, EMPTY, 0, remembered;
      story, given := Story(offset, [], [], {}), [];
      failed := !Settled(link.w);
      Origin(config, book(generation), offset);
    }

    ghost predicate Linked()
      reads this, link`w, link`run
    {
      && link.Linked() && Fits(link.src, config, book) && link.src.stream == stream && 1 <= config.maxLines
      && link.w.base != [] && generation == GenOf(link.w.base)
      && remembered == link.w.memory.id
      && (!failed ==> Settled(link.w))
    }

    /** Everything before at was handed over, is held, or was rejected; a group stuck is the one committed last. */
    ghost predicate ValidAt(at: nat)
      reads this, link`w, link`run
    {
      && Linked()
      && (link.w.hold.Stuck? ==> link.w.hold.id == Id(stream, generation, pending.start, OffsetOf(link.w.base)))
      && Stands(config, book(generation), OffsetOf(link.w.base), link.w.hold.Stuck?, committed, at, pending, story)
      && Tells(config, book(generation), given, OffsetOf(link.w.base), link.w.hold.Stuck?, pending, story.out)
      && Recorded(link.src, generation, given, link.w.base)
    }

    /** The groups handed over so far ended for a reason. */
    ghost predicate Grouped()
      reads this
    {
      Reasoned(config, story.out, story.timed, Head(story.held))
    }

    ghost predicate Valid()
      reads this, link`w, link`run
    {
      ValidAt(readOffset) && Grouped()
    }

    /** Nothing told or given in the generation is taken back, no group timed out, and no unready record replaced. */
    twostate predicate Continues()
      reads this, link
    {
      && generation == old(generation) && story.origin == old(story.origin)
      && old(story.out) <= story.out && old(given) <= given && story.timed == old(story.timed)
      && old(link.faults) <= link.faults
      && (old(failed) ==> failed) && (link.faults == old(link.faults) ==> failed == old(failed))
      && (!failed ==> link.w.quiet == old(link.w.quiet))
    }

    /** Save the checkpoint; the position follows only if that succeeds. */
    method Commit(ghost v: Advance, offset: nat, admission: Option<Id>) returns (ok: bool)
      requires Linked() && admission == Named(link.w, v) && CanAdvance(link.src, link.w, v)
      modifies this`committed, this`remembered, link
      ensures link.Linked() && remembered == link.w.memory.id && link.w.aligned == old(link.w.aligned)
      ensures committed == if ok then offset else old(committed)
      ensures link.w.base == if ok && !v.Overrun? then old(link.w).base + Moves(link.src, old(link.w), v) else old(link.w).base
      ensures link.w.hold == if ok then HoldAfter(old(link.w), v) else old(link.w).hold
      ensures remembered == if ok then admission else old(remembered)
      ensures link.faults == old(link.faults) + if ok then 0 else 1
      ensures !failed ==> link.w.quiet == old(link.w.quiet) && (admission.None? || !ok ==> Settled(link.w))
    {
      ok := link.SaveCheckpoint(v);
      if ok {
        committed, remembered := offset, admission;
      }
    }

    /** A record that the reader may offer: its next, or the group stuck. */
    ghost predicate Offerable(start: nat, end: nat)
      requires link.w.base != []
      reads this, link`w, link`run
    {
      && start < end
      && if link.w.hold.Stuck? then Offering(link.src, link.w, Id(stream, generation, start, end))
         else start == NextStart(config, book(generation), OffsetOf(link.w.base))
    }

    /** Admit a record, and commit past it. */
    method Pass(start: nat, end: nat, body: string) returns (past: bool)
      requires Linked() && Offerable(start, end)
      requires IsGroup(config, book(generation), start, end, body)
      modifies this`committed, this`remembered, this`given, link
      ensures link.Linked() && remembered == link.w.memory.id && link.w.base != [] && generation == GenOf(link.w.base)
      ensures link.w.aligned == old(link.w.aligned) && link.faults == old(link.faults) + (if past then 0 else 1)
      ensures committed == if past then end else old(committed)
      ensures past ==> Took(link.src, old(link.w), link.w, Id(stream, generation, start, end))
      ensures past ==> forall e :: e in old(link.w).base ==> e in link.w.base
      ensures past ==> link.w.hold == Done(Id(stream, generation, start, end)) && remembered == Some(link.w.hold.id)
      ensures past ==> OffsetOf(link.w.base) == end && RecordOf(link.src, Id(stream, generation, start, end)) in link.w.base
      ensures given == if past then old(given) + [Given(start, end, body)] else old(given)
      ensures !past ==> link.w.base == old(link.w.base) && (link.w.hold == old(link.w.hold) || (!old(link.w.hold).Stuck? && link.w.hold.Free?))
      ensures !failed ==> link.w.quiet == old(link.w.quiet) && (!past ==> Settled(link.w))
    {
      assert Look(StandKey, 0) && Look(LineKey, 0);
      var id := Id(stream, generation, start, end);
      past := link.AdmitRecord(id, body);
      if past {
        PassingMoves(link.src, link.w, id);
        past := Commit(Passing(link.w, id), end, Some(id));
        if past { given := given + [Given(start, end, body)]; }
      }
    }

    /** Admit a record, commit past it, activate it. */
    method Emit(start: nat, end: nat, body: string) returns (ok: bool, ghost past: bool)
      requires Linked() && Offerable(start, end)
      requires IsGroup(config, book(generation), start, end, body)
      modifies this`committed, this`remembered, this`failed, this`given, link
      ensures Linked() && (ok ==> past) && link.w.aligned == old(link.w.aligned)
      ensures link.faults == old(link.faults) + if ok then 0 else 1
      ensures committed == if past then end else old(committed)
      ensures past ==> Took(link.src, old(link.w), link.w, Id(stream, generation, start, end))
      ensures past ==> forall e :: e in old(link.w).base ==> e in link.w.base
      ensures past ==> link.w.hold == Done(Id(stream, generation, start, end))
      ensures past ==> OffsetOf(link.w.base) == end && RecordOf(link.src, Id(stream, generation, start, end)) in link.w.base
      ensures given == if past then old(given) + [Given(start, end, body)] else old(given)
      ensures !past ==> link.w.base == old(link.w.base) && (link.w.hold == old(link.w.hold) || (!old(link.w.hold).Stuck? && link.w.hold.Free?))
      ensures past && !ok ==> failed
      ensures old(failed) ==> failed
      ensures !past || ok ==> failed == old(failed)
      ensures !failed ==> link.w.quiet == old(link.w.quiet)
    {
      ok := Pass(start, end, body);
      past := ok;
      if ok {
        ghost var before := link.w;
        ok := link.ActivateRecord(remembered.value);
        assert Took(link.src, old(link.w), link.w, Id(stream, generation, start, end)) by {
          assert link.w.base == before.base;
          TookSame(link.src, old(link.w), before, link.w, Id(stream, generation, start, end));
        }
        if !ok { failed := true; }
      }
    }

    /** Hand the group over, if there is one; at is how far lines were consumed. */
    method Flush(ghost at: nat) returns (ok: bool)
      requires ValidAt(at)
      modifies this, link
      ensures ValidAt(at) && Continues() && readOffset == old(readOffset)
      ensures Told(story) == old(Told(story))
      ensures ok ==> pending.lines == 0 && story == if old(pending).lines > 0 then HandedOver(old(story)) else old(story)
      ensures !ok ==> pending == old(pending) && story == old(story) && pending.lines > 0
      ensures link.faults == old(link.faults) + (if ok then 0 else 1) && since == old(since)
      ensures !ok && link.w.base != old(link.w.base) ==> link.w.hold.Stuck? && failed
    {
      ok := true;
      if pending.lines > 0 {
        ToldSame(story);
        ok := HandOver(at);
      }
    }

    lemma OfferGroup(at: nat)
      requires ValidAt(at) && pending.lines > 0
      ensures Offerable(pending.start, pending.end)
    {
      ghost var b, o, stuck := book(generation), OffsetOf(link.w.base), link.w.hold.Stuck?;
      StandFacts(config, b, o, stuck, committed, at, pending, story);
      assert Look(StandKey, 0);
    }

    method HandOver(ghost at: nat) returns (ok: bool)
      requires ValidAt(at) && pending.lines > 0
      modifies this, link
      ensures ValidAt(at) && Continues() && readOffset == old(readOffset)
      ensures ok ==> pending == EMPTY && story == HandedOver(old(story))
      ensures !ok ==> pending == old(pending) && story == old(story)
      ensures link.faults == old(link.faults) + (if ok then 0 else 1) && since == old(since)
      ensures !ok && link.w.base != old(link.w.base) ==> link.w.hold.Stuck? && failed
    {
      ghost var b, o, stuck := book(generation), OffsetOf(link.w.base), link.w.hold.Stuck?;
      StandFacts(config, b, o, stuck, committed, at, pending, story);
      PassGroup(config, b, o, stuck, committed, at, pending, story);
      ghost var x := Given(pending.start, pending.end, pending.body);
      TellStuck(config, b, given, o, stuck, pending, story.out, x);
      TellOut(config, b, given, o, stuck, pending, story.out, x, story.held);
      OfferGroup(at);
      ghost var past;
      ok, past := Emit(pending.start, pending.end, pending.body);
      if ok {
        story := HandedOver(story);
        pending := EMPTY;
      } else if past {
        link.KeepGroup();
      }
    }

    /** How the checkpoint passes a rejected line. */
    lemma MayReject(at: nat, end: nat) returns (v: Advance)
      requires ValidAt(at)
      requires LineEnd(book(generation), at) == Some(end) && Discarded(config, book(generation), at, end)
      ensures CanAdvance(link.src, link.w, v) && Named(link.w, v).None? && (v.Skip? || v.Overrun?)
      ensures v.Skip? <==> pending.lines == 0
      ensures v.Skip? ==> v.to == end && end > OffsetOf(link.w.base)
    {
      ghost var b, o, stuck := book(generation), OffsetOf(link.w.base), link.w.hold.Stuck?;
      StandFacts(config, b, o, stuck, committed, at, pending, story);
      PassRejected(config, b, o, stuck, committed, at, end, pending, story);
      RejectStarts(config, b, o, stuck, committed, at, end, pending, story);
      assert Look(StandKey, 0);
      v := if pending.lines == 0 then Skip(end)
           else if stuck && pending.end == o then Overrun(o, o, end)
           else Overrun(NextStart(config, b, o), pending.end, end);
    }

    /** A complete line that is rejected: commit past it. */
    method Reject(ghost at: nat, end: nat) returns (ok: bool)
      requires ValidAt(at) && Grouped() && readOffset == end
      requires LineEnd(book(generation), at) == Some(end) && Discarded(config, book(generation), at, end)
      modifies this`committed, this`remembered, link
      ensures Valid() && Continues() && (ok ==> committed == end)
      ensures link.faults == old(link.faults) + if ok then 0 else 1
    {
      ghost var b, o, stuck := book(generation), OffsetOf(link.w.base), link.w.hold.Stuck?;
      StandFacts(config, b, o, stuck, committed, at, pending, story);
      PassRejected(config, b, o, stuck, committed, at, end, pending, story);
      ghost var v := MayReject(at, end);
      if v.Skip? { TellLater(config, b, given, o, end, pending, story.out); }
      ok := Commit(v, end, None);
      if ok && v.Skip? {
        assert OffsetOf(link.w.base) == end;
      }
    }

    /** A line of its own can be offered, and what it leaves if it is passed, or is not. */
    lemma Alone(start: nat, end: nat, line: string)
      requires ValidAt(start) && !config.multiline
      requires LineEnd(book(generation), start) == Some(end) && !Discarded(config, book(generation), start, end)
      requires line == Clean(config, book(generation)[start..end])
      ensures !link.w.hold.Stuck? && Offerable(start, end) && IsGroup(config, book(generation), start, end, line)
      ensures committed == OffsetOf(link.w.base)
      ensures Stands(config, book(generation), end, false, end, end, pending, story.(out := story.out + [[line]]))
      ensures Tells(config, book(generation), given + [Given(start, end, line)], end, false, pending, story.out + [[line]])
      ensures Stands(config, book(generation), committed, false, committed, committed, pending, story)
    {
      ghost var b, o := book(generation), OffsetOf(link.w.base);
      StandFacts(config, b, o, link.w.hold.Stuck?, committed, start, pending, story);
      PassAlone(config, b, o, committed, start, end, pending, story);
      BackToCommitted(config, b, o, committed, start, pending, story);
      TellOut(config, b, given, o, false, pending, story.out, Given(start, end, line), [line]);
      TellSame(config, b, given + [Given(start, end, line)], end, false, EMPTY, story.out + [[line]], pending);
    }

    /** Plain mode: a line is a record of its own; what was not committed is read again. */
    method TakeAlone(start: nat, end: nat, line: string) returns (ok: bool)
      requires ValidAt(start) && readOffset == end && !config.multiline
      requires LineEnd(book(generation), start) == Some(end) && !Discarded(config, book(generation), start, end)
      requires line == Clean(config, book(generation)[start..end])
      modifies this, link
      ensures ValidAt(readOffset) && Continues() && Grouped()
      ensures link.faults == old(link.faults) + if ok then 0 else 1
      ensures ok ==> readOffset == committed == end
      ensures story == old(story) || story == old(story).(out := old(story).out + [[line]])
      ensures !ok && !failed ==> readOffset == committed == old(committed) && story == old(story)
      ensures ok ==> story != old(story)
    {
      Alone(start, end, line);
      ghost var past;
      ok, past := Emit(start, end, line);
      if past { TellAlone(end, line); }
      if !ok { readOffset := committed; }
    }

    /** The line was handed over. */
    ghost method TellAlone(end: nat, line: string)
      requires Linked() && !config.multiline && OffsetOf(link.w.base) == end && !link.w.hold.Stuck?
      requires Stands(config, book(generation), end, false, end, end, pending, story.(out := story.out + [[line]]))
      requires Tells(config, book(generation), given, end, false, pending, story.out + [[line]])
      requires Recorded(link.src, generation, given, link.w.base) && committed == end
      modifies this`story
      ensures ValidAt(end) && story == old(story).(out := old(story).out + [[line]])
    {
      story := story.(out := story.out + [[line]]);
    }

    /** The line joins the group held. */
    predicate Joining(line: string)
      reads this
    {
      pending.lines > 0 && !config.opens(line) && pending.lines < config.maxLines && |pending.body| + 1 + |line| <= config.maxBytes
    }

    /**
    Multiline mode: a line joins the group held if and only if it opens none and both
    bounds allow it; otherwise that group is handed over, and the line begins one.
    */
    method TakeGrouped(start: nat, end: nat, line: string, now: int) returns (ok: bool)
      requires ValidAt(start) && Grouped() && readOffset == end && config.multiline
      requires LineEnd(book(generation), start) == Some(end) && !Discarded(config, book(generation), start, end)
      requires line == Clean(config, book(generation)[start..end])
      modifies this, link
      ensures Valid() && Continues()
      ensures readOffset == if ok then end else start
      ensures link.faults == old(link.faults) + if ok then 0 else 1
      ensures old(Joining(line)) ==>
                ok && pending == Joined(old(pending), line, start, end) && story.out == old(story.out) && since == old(since)
      ensures ok && !old(Joining(line)) ==>
                && pending == Pending(line, start, end, 1) && since == now
                && story.out == if old(pending).lines > 0 then old(story.out) + [old(story.held)] else old(story.out)
      ensures Told(story) == old(Told(story)) + if ok then [line] else []
    {
      HeldLines(start);
      if pending.lines == 0 { ReasonedAny(config, story.out, story.timed, line); }
      ok := MakeRoom(start, line);
      if !ok {
        readOffset := start;
        return;
      }
      if pending.lines == 0 { since := now; }
      ToldOn(story, line);
      Gather(start, end, line);
    }

    /** Hand over the group held before a line that cannot join it. */
    method MakeRoom(ghost start: nat, line: string) returns (ok: bool)
      requires ValidAt(start) && Awaits(line) && config.multiline
      modifies this, link
      ensures ValidAt(start) && Awaits(line) && Continues() && readOffset == old(readOffset)
      ensures old(Joining(line)) ==> ok && story == old(story) && pending == old(pending)
      ensures ok && !old(Joining(line)) ==>
                pending.lines == 0 && story == if old(pending).lines > 0 then HandedOver(old(story)) else old(story)
      ensures !ok ==> story == old(story) && pending == old(pending) && pending.lines > 0
      ensures link.faults == old(link.faults) + (if ok then 0 else 1) && since == old(since)
      ensures Told(story) == old(Told(story))
    {
      ok := true;
      HeldLines(start);
      if config.opens(line) && pending.lines > 0 {
        ok := FlushBefore(start, line);
        if !ok { return; }
      }
      if |pending.body| + |line| + (if pending.lines > 0 then 1 else 0) > config.maxBytes || pending.lines >= config.maxLines {
        ok := FlushBefore(start, line);
      }
    }

    /** The group held is its lines, joined. */
    lemma HeldLines(at: nat)
      requires ValidAt(at)
      ensures pending.lines == |story.held| && (pending.lines > 0 ==> pending.body == Join(story.held))
    {
      assert Look(LineKey, 0);
    }

    /** The groups handed over ended for a reason, this line being the next unless a group is held. */
    ghost predicate Awaits(line: string)
      reads this
    {
      Reasoned(config, story.out, story.timed, if pending.lines == 0 then Some(line) else Head(story.held))
    }

    /** Hand over the group held, if there is one, before a line that ends it. */
    method FlushBefore(ghost at: nat, line: string) returns (ok: bool)
      requires ValidAt(at) && Awaits(line) && (pending.lines > 0 ==> EndsGroup(config, story.held, line))
      modifies this, link
      ensures ValidAt(at) && Awaits(line) && Continues() && readOffset == old(readOffset)
      ensures ok ==> pending.lines == 0 && story == if old(pending).lines > 0 then HandedOver(old(story)) else old(story)
      ensures !ok ==> pending == old(pending) && story == old(story) && pending.lines > 0
      ensures link.faults == old(link.faults) + (if ok then 0 else 1) && since == old(since)
      ensures Told(story) == old(Told(story))
    {
      HeldLines(at);
      if pending.lines > 0 { ReasonedLine(config, story.out, story.timed, story.held, line); }
      ok := Flush(at);
    }

    /** One more line joins the group held, or begins one. */
    method Gather(start: nat, end: nat, line: string)
      requires ValidAt(start) && Awaits(line) && readOffset == end && config.multiline
      requires LineEnd(book(generation), start) == Some(end) && !Discarded(config, book(generation), start, end)
      requires line == Clean(config, book(generation)[start..end])
      requires pending.lines > 0 ==> Joining(line)
      modifies this`pending, this`story
      ensures Valid() && Continues() && pending == Joined(old(pending), line, start, end)
      ensures story == old(story).(held := old(story).held + [line])
    {
      ghost var b, o, stuck := book(generation), OffsetOf(link.w.base), link.w.hold.Stuck?;
      HeldLines(start);
      HoldLine(config, b, o, stuck, committed, start, end, pending, story, line);
      StandFacts(config, b, o, stuck, committed, start, pending, story);
      TellSame(config, b, given, o, stuck, pending, story.out, Joined(pending, line, start, end));
      assert Head(story.held + [line]) == if pending.lines == 0 then Some(line) else Head(story.held);
      story := story.(held := story.held + [line]);
      pending := Joined(pending, line, start, end);
    }

    /** The file is shorter than what was committed: a new generation begins at its start. */
    method Truncated() returns (ok: bool)
      requires Valid()
      modifies this, link
      ensures Valid() && generation == old(generation) + 1 && readOffset == committed == 0 && pending == EMPTY
      ensures story == Story(0, [], [], {}) && given == [] && failed == old(failed)
      ensures link.faults == old(link.faults) + if ok then 0 else 1
      ensures link.w.base == old(link.w).base + [Begin(generation, 0)]
      ensures !failed ==> link.w.quiet == old(link.w.quiet)
    {
      link.Truncated();
      generation, committed, readOffset, pending := generation + 1, 0, 0, EMPTY;
      story, given := Story(0, [], [], {}), [];
      ok := Commit(Restate, 0, None);
      Anew();
    }

    /** Nothing is read, held or told of the generation yet. */
    lemma Anew()
      requires Linked() && link.w.hold.Free? && OffsetOf(link.w.base) == committed == readOffset == 0
      requires pending == EMPTY && story == Story(0, [], [], {}) && given == []
      ensures Valid()
    {
      Origin(config, book(generation), 0);
    }

    /** One complete line. */
    method TakeLine(start: nat, end: nat, raw: string, tooLarge: bool, now: int) returns (ok: bool)
      requires ValidAt(start) && Grouped() && readOffset == end
      requires LineEnd(book(generation), start) == Some(end) && (tooLarge <==> end - start > config.maxLine)
      requires !tooLarge ==> raw == book(generation)[start..end]
      modifies this, link
      ensures Valid() && Continues()
      ensures ok ==> readOffset == end
      ensures link.faults == old(link.faults) + if ok then 0 else 1
    {
      var line := config.repair(Strip(raw));
      if tooLarge || (!config.multiline && line == "") {
        ok := Reject(start, end);
      } else if !config.multiline {
        ok := TakeAlone(start, end, line);
      } else {
        ok := TakeGrouped(start, end, line, now);
      }
    }

    /** Complete lines, one after another, until none is left or one cannot be handed over. */
    method TakeLines(data: string, now: int) returns (done: bool, failure: bool)
      requires Valid() && data <= book(generation)
      modifies this, link
      ensures Valid() && Continues()
      ensures done ==> LineEnd(data, readOffset).None? && !failure
      ensures done <==> link.faults == old(link.faults)
    {
      done, failure := false, false;
      while readOffset < |data|
        invariant Valid() && Continues() && link.faults == old(link.faults)
        decreases |data| - readOffset
      {
        var readable := link.Answers();
        if !readable { return; }
        var line, end, complete, tooLarge := ReadNext(data, readOffset, config.maxLine, book(generation));
        if !complete { break; }
        var start := readOffset;
        readOffset := end;
        var ok := TakeLine(start, end, line, tooLarge, now);
        if !ok {
          failure := true;
          return;
        }
      }
      done := true;
    }

    /**
    One pass over a file that now holds data: its generation grown, or, if data is
    shorter than what was committed, a new one.  Within a generation the groups handed
    over stay, and are what was admitted, and time ends one group at most, which has
    been held for the timeout.  A pass in which no call fails leaves no complete line
    unread, and no group held that long.
    */
    method Consume(data: string, now: int) returns (done: bool)
      requires Valid()
      requires data <= book(if |data| < committed then generation + 1 else generation)
      modifies this, link
      ensures Valid()
      ensures generation == old(generation) + if |data| < old(committed) then 1 else 0
      ensures generation == old(generation) ==>
                story.origin == old(story.origin) && old(story.out) <= story.out && old(given) <= given
      ensures generation != old(generation) ==> story.origin == 0
      ensures var before := if generation == old(generation) then old(story.timed) else {};
              || story.timed == before
              || (story.timed == before + {|story.out| - 1} && pending.lines == 0 && now - since >= config.timeout)
      ensures done ==> LineEnd(data, readOffset).None?
      ensures old(link.faults) <= link.faults
      ensures link.faults == old(link.faults) ==> done && (pending.lines > 0 ==> now - since < config.timeout)
      ensures (old(failed) ==> failed) && (link.faults == old(link.faults) ==> failed == old(failed))
      ensures !failed ==> link.w.quiet == old(link.w.quiet)
    {
      done := false;
      if |data| < committed {
        var ok := Truncated();
        if !ok { return; }
      }
      var failure;
      done, failure := TakeLines(data, now);
      if !failure && pending.lines > 0 && now - since >= config.timeout {
        FlushExpired();
      }
    }

    /** Time ends the group held; if it cannot be handed over it is held on. */
    method FlushExpired()
      requires Valid() && pending.lines > 0
      modifies this, link
      ensures Valid() && since == old(since) && generation == old(generation) && readOffset == old(readOffset)
      ensures story.origin == old(story.origin) && old(story.out) <= story.out && old(given) <= given
      ensures old(link.faults) <= link.faults && (link.faults == old(link.faults) ==> pending.lines == 0)
      ensures story.timed == old(story.timed) || (story.timed == old(story.timed) + {|story.out| - 1} && pending.lines == 0)
      ensures (old(failed) ==> failed) && (link.faults == old(link.faults) ==> failed == old(failed))
      ensures !failed ==> link.w.quiet == old(link.w.quiet)
    {
      HeldLines(readOffset);
      ReasonedTime(config, story.out, story.timed, story.held);
      ghost var last := |story.out|;
      var ok := Flush(readOffset);
      if ok { TimeOut(last); }
    }

    /** The group handed over last was ended by time. */
    ghost method TimeOut(k: nat)
      requires ValidAt(readOffset) && pending.lines == 0 && story.held == []
      requires Reasoned(config, story.out, story.timed + {k}, None)
      modifies this`story
      ensures Valid() && story == old(story).(timed := old(story).timed + {k})
    {
      story := story.(timed := story.timed + {k});
    }

    /** A poll first activates what the checkpoint remembers, then consumes; unless a call fails nothing remembered stays unready. */
    method Poll(data: string, now: int) returns (done: bool)
      requires Valid()
      requires data <= book(if |data| < committed then generation + 1 else generation)
      modifies this, link
      ensures Valid()
      ensures generation == old(generation) + if |data| < old(committed) then 1 else 0
      ensures generation == old(generation) ==>
                story.origin == old(story.origin) && old(story.out) <= story.out && old(given) <= given
      ensures done ==> LineEnd(data, readOffset).None?
      ensures link.faults == old(link.faults) ==> done && (pending.lines > 0 ==> now - since < config.timeout)
      ensures !old(failed) && !failed ==> link.w.quiet == old(link.w.quiet)
      ensures link.faults == old(link.faults) && old(remembered).Some? ==> !failed && Settled(link.w)
    {
      if remembered.Some? {
        var ok := link.ActivateRecord(remembered.value);
        if ok { failed := false; }
      }
      done := Consume(data, now);
    }
  }
}
