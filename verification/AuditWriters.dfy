/** Several processes append to one audit log (audit.py: AuditLog.append, head). Each
    writer moves by small steps; steps of different writers interleave freely. The file
    lock covers reading the head and writing the primary file, and nothing else: scans by
    `head` outside `append` and the mirror write run without it. */
module AuditWriters {
  import opened Basics
  import opened JsonText
  import opened AuditChain
  import opened Audit

  datatype Phase =
    | Idle
    | Measured(size: nat)                            // head(): file size taken
    | Scanned(size: nat, head: Option<Entry>)        // head(): file read some time later
    | Holding                                        // append(): lock taken
    | Prepared(entry: Entry)                         // append(): entry built from the head
    | Written(line: string)                          // append(): primary written, lock held
    | Mirroring(line: string)                        // append(): lock released

  datatype Writer = Writer(phase: Phase, cachedHead: Option<Entry>, cachedSize: int)

  /** `primaryBy` and `mirrorBy` record which writer wrote each line. */
  datatype Sys = Sys(primary: seq<string>, primaryBy: seq<nat>, mirror: seq<string>, mirrorBy: seq<nat>,
                     lock: Option<nat>, writers: seq<Writer>)

  datatype Step =
    | Measure | Scan | Store
    | Acquire | Prepare(ts: int, actor: string, event: string, fields: map<string, Json>)
    | Write | Release | Mirror

  datatype Turn = Turn(w: nat, step: Step)

  function Start(n: nat): Sys {
    Sys([], [], [], [], None, seq(n, _ => Writer(Idle, None, -1)))
  }

  predicate Enabled(s: Sys, t: Turn) {
    t.w < |s.writers| &&
    var p := s.writers[t.w].phase;
    match t.step
    case Measure => p.Idle?
    case Scan => p.Measured?
    case Store => p.Scanned?
    case Acquire => p.Idle? && s.lock.None?
    case Prepare(_, _, _, fields) => p.Holding? && fields.Keys !! CORE
    case Write => p.Prepared?
    case Release => p.Written?
    case Mirror => p.Mirroring?
  }

  /** What a scan of the file finds last. */
  function ScanHead(c: Codec, primary: seq<string>): Option<Entry> {
    match ReadEntries(c, primary)
    case Ok(es) => Last(es)
    case Err(_) => None
  }

  function Next(c: Codec, s: Sys, t: Turn): Sys
    requires Enabled(s, t)
  {
    var w := s.writers[t.w];
    match t.step
    case Measure => s.(writers := s.writers[t.w := w.(phase := Measured(Size(s.primary)))])
    case Scan =>
      s.(writers := s.writers[t.w := w.(phase := Scanned(w.phase.size, ScanHead(c, s.primary)))])
    case Store =>
      // an unchanged size keeps the old cache; otherwise the scan replaces it
      var w' := if w.phase.size == w.cachedSize then w.(phase := Idle)
                else Writer(Idle, w.phase.head, w.phase.size);
      s.(writers := s.writers[t.w := w'])
    case Acquire => s.(lock := Some(t.w), writers := s.writers[t.w := w.(phase := Holding)])
    case Prepare(ts, actor, event, fields) =>
      var head := if Size(s.primary) == w.cachedSize then w.cachedHead else ScanHead(c, s.primary);
      var entry := NextEntry(c, head, ts, actor, event, fields);
      s.(writers := s.writers[t.w := Writer(Prepared(entry), head, Size(s.primary))])
    case Write =>
      var line := c.write(w.phase.entry);
      var primary := s.primary + [line];
      s.(primary := primary, primaryBy := s.primaryBy + [t.w],
         writers := s.writers[t.w := Writer(Written(line), Some(w.phase.entry), Size(primary))])
    case Release => s.(lock := None, writers := s.writers[t.w := w.(phase := Mirroring(w.phase.line))])
    case Mirror =>
      s.(mirror := s.mirror + [w.phase.line], mirrorBy := s.mirrorBy + [t.w],
         writers := s.writers[t.w := w.(phase := Idle)])
  }

  /** `s` is reached from `n` fresh writers by the given turns. */
  ghost predicate Reaches(c: Codec, n: nat, turns: seq<Turn>, s: Sys)
    decreases |turns|
  {
    if turns == [] then s == Start(n)
    else
      var k := |turns| - 1;
      exists s0 :: Reaches(c, n, turns[..k], s0) && Enabled(s0, turns[k]) && s == Next(c, s0, turns[k])
  }

  // ---------- the primary file ----------

  /** A remembered size is never larger than the file, and if it is as large, what was
      remembered with it is the last entry. */
  predicate Fresh(c: Codec, primary: seq<string>, size: int, head: Option<Entry>) {
    size <= Size(primary) && (size == Size(primary) ==> head == ScanHead(c, primary))
  }

  predicate WriterSound(c: Codec, primary: seq<string>, w: Writer) {
    Fresh(c, primary, w.cachedSize, w.cachedHead) &&
    match w.phase
    case Measured(size) => size <= Size(primary)
    case Scanned(size, head) => Fresh(c, primary, size, head)
    case Prepared(e) =>
      Plain(e) && e == NextEntry(c, ScanHead(c, primary), e.ts, e.actor, e.event, e.fields)
    case _ => true
  }

  predicate HoldsLock(p: Phase) {
    p.Holding? || p.Prepared? || p.Written?
  }

  ghost predicate PrimarySound(c: Codec, s: Sys) {
    && FileSound(c, s.primary)
    && (forall i :: 0 <= i < |s.writers| ==> WriterSound(c, s.primary, s.writers[i]))
    && (forall i :: 0 <= i < |s.writers| ==> (HoldsLock(s.writers[i].phase) <==> s.lock == Some(i)))
  }

  /** The file parses and chains. */
  predicate FileSound(c: Codec, primary: seq<string>) {
    ReadEntries(c, primary).Ok? && Chained(c, ReadEntries(c, primary).value)
  }

  /** One more entry that chains to the last one, written to a sound file. */
  lemma FileGrows(c: Codec, primary: seq<string>, e: Entry)
    requires c.Lawful() && FileSound(c, primary) && Plain(e)
    requires e == NextEntry(c, ScanHead(c, primary), e.ts, e.actor, e.event, e.fields)
    ensures FileSound(c, primary + [c.write(e)]) && ScanHead(c, primary + [c.write(e)]) == Some(e)
  {
    var es := ReadEntries(c, primary).value;
    ReadEntriesSnoc(c, primary, c.write(e));
    NextEntryChains(c, es, e);
    assert Last(es + [e]) == Some(e);
  }

  /** The writer of that entry remembers it with the new size. */
  lemma WriterAfterWrite(c: Codec, primary: seq<string>, e: Entry, line: string)
    requires ScanHead(c, primary + [line]) == Some(e)
    ensures WriterSound(c, primary + [line], Writer(Written(line), Some(e), Size(primary + [line])))
  {}

  lemma OthersStaySound(c: Codec, s: Sys, w: nat, line: string, i: nat)
    requires PrimarySound(c, s) && s.lock == Some(w) && i < |s.writers| && i != w
    ensures WriterSound(c, s.primary + [line], s.writers[i])
  {
    assert WriterSound(c, s.primary, s.writers[i]) && (HoldsLock(s.writers[i].phase) <==> s.lock == Some(i));
    IdleStaysSound(c, s.primary, line, s.writers[i]);
  }

  lemma WriterStays(c: Codec, s: Sys, t: Turn)
    requires PrimarySound(c, s) && Enabled(s, t) && t.step.Write?
    ensures Plain(s.writers[t.w].phase.entry) && s.lock == Some(t.w)
    ensures var e := s.writers[t.w].phase.entry; e == NextEntry(c, ScanHead(c, s.primary), e.ts, e.actor, e.event, e.fields)
  {
    assert WriterSound(c, s.primary, s.writers[t.w]) && (HoldsLock(s.writers[t.w].phase) <==> s.lock == Some(t.w));
  }

  lemma WriteKeepsLock(c: Codec, s: Sys, t: Turn)
    requires PrimarySound(c, s) && Enabled(s, t) && t.step.Write?
    ensures var s' := Next(c, s, t); forall i :: 0 <= i < |s'.writers| ==> (HoldsLock(s'.writers[i].phase) <==> s'.lock == Some(i))
  {}

  lemma WriteKeepsSound(c: Codec, s: Sys, t: Turn)
    requires c.Lawful() && PrimarySound(c, s) && Enabled(s, t) && t.step.Write?
    ensures PrimarySound(c, Next(c, s, t))
  {
    var s', e := Next(c, s, t), s.writers[t.w].phase.entry;
    WriterStays(c, s, t);
    WriteKeepsLock(c, s, t);
    FileGrows(c, s.primary, e);
    WriterAfterWrite(c, s.primary, e, c.write(e));
    forall i | 0 <= i < |s'.writers| ensures WriterSound(c, s'.primary, s'.writers[i]) {
      if i != t.w { OthersStaySound(c, s, t.w, c.write(e), i); }
    }
  }

  /** A writer without the lock is sound after another's line as well. */
  lemma IdleStaysSound(c: Codec, primary: seq<string>, line: string, w: Writer)
    requires WriterSound(c, primary, w) && !HoldsLock(w.phase)
    ensures WriterSound(c, primary + [line], w)
  {
    SizeSnoc(primary, line);
  }

  lemma StepKeepsSound(c: Codec, s: Sys, t: Turn)
    requires c.Lawful() && PrimarySound(c, s) && Enabled(s, t)
    ensures PrimarySound(c, Next(c, s, t))
  {
    if t.step.Write? {
      WriteKeepsSound(c, s, t);
    } else {
      var s' := Next(c, s, t);
      assert WriterSound(c, s.primary, s.writers[t.w]);
      forall i | 0 <= i < |s'.writers| ensures WriterSound(c, s'.primary, s'.writers[i]) {
        if i != t.w {
          assert WriterSound(c, s.primary, s.writers[i]);
        }
      }
    }
  }

  /** However the writers interleave, verify_chain accepts the primary file, and a cache
      whose size matches the file holds the true last entry. */
  lemma {:induction false} InterleavedAppendsChain(c: Codec, n: nat, turns: seq<Turn>, s: Sys)
    requires c.Lawful() && Reaches(c, n, turns, s)
    ensures PrimarySound(c, s)
    decreases |turns|
  {
    if turns == [] {
      assert Size([]) == 0;
    } else {
      var k := |turns| - 1;
      var s0 :| Reaches(c, n, turns[..k], s0) && Enabled(s0, turns[k]) && s == Next(c, s0, turns[k]);
      InterleavedAppendsChain(c, n, turns[..k], s0);
      StepKeepsSound(c, s0, turns[k]);
    }
  }

  // ---------- the mirror file ----------

  /** The line a writer has put in the primary file and not yet in the mirror. */
  function Pending(p: Phase): seq<string> {
    match p
    case Written(line) => [line]
    case Mirroring(line) => [line]
    case _ => []
  }

  function IsPending(p: Phase, x: string): nat {
    if Pending(p) == [x] then 1 else 0
  }

  /** How many writers still have to mirror the line x. */
  function PendingCount(writers: seq<Writer>, x: string): nat {
    if writers == [] then 0
    else PendingCount(writers[..|writers| - 1], x) + IsPending(writers[|writers| - 1].phase, x)
  }

  /** The lines one writer wrote, in order. */
  function Of(lines: seq<string>, tags: seq<nat>, w: nat): seq<string>
    requires |lines| == |tags|
  {
    if lines == [] then []
    else
      var k := |lines| - 1;
      Of(lines[..k], tags[..k], w) + (if tags[k] == w then [lines[k]] else [])
  }

  lemma OfSnoc(lines: seq<string>, tags: seq<nat>, line: string, tag: nat, w: nat)
    requires |lines| == |tags|
    ensures Of(lines + [line], tags + [tag], w) == Of(lines, tags, w) + (if tag == w then [line] else [])
  {
    assert (lines + [line])[..|lines|] == lines && (tags + [tag])[..|tags|] == tags;
  }

  lemma {:induction false} PendingCountUpdate(writers: seq<Writer>, i: nat, w: Writer, x: string)
    requires i < |writers|
    ensures PendingCount(writers[i := w], x) + IsPending(writers[i].phase, x)
         == PendingCount(writers, x) + IsPending(w.phase, x)
  {
    var k := |writers| - 1;
    var next := writers[i := w];
    if i == k {
      assert next[..k] == writers[..k];
    } else {
      PendingCountUpdate(writers[..k], i, w, x);
      assert next[..k] == writers[..k][i := w];
    }
  }

  lemma {:induction false} PendingCountIdle(writers: seq<Writer>, x: string)
    requires forall i :: 0 <= i < |writers| ==> Pending(writers[i].phase) == []
    ensures PendingCount(writers, x) == 0
  {
    if writers != [] { PendingCountIdle(writers[..|writers| - 1], x); }
  }

  ghost predicate MirrorSound(s: Sys) {
    && |s.primary| == |s.primaryBy| && |s.mirror| == |s.mirrorBy|
    && (forall i :: 0 <= i < |s.primaryBy| ==> s.primaryBy[i] < |s.writers|)
    && (forall i :: 0 <= i < |s.mirrorBy| ==> s.mirrorBy[i] < |s.writers|)
    && (forall w :: 0 <= w < |s.writers| ==>
          Of(s.primary, s.primaryBy, w) == Of(s.mirror, s.mirrorBy, w) + Pending(s.writers[w].phase))
  }

  ghost predicate MirrorCounts(s: Sys) {
    forall x :: multiset(s.primary)[x] == multiset(s.mirror)[x] + PendingCount(s.writers, x)
  }

  /** One writer's share of both files after a step. */
  ghost predicate ShareKept(s': Sys, w: nat)
    requires w < |s'.writers| && |s'.primary| == |s'.primaryBy| && |s'.mirror| == |s'.mirrorBy|
  {
    Of(s'.primary, s'.primaryBy, w) == Of(s'.mirror, s'.mirrorBy, w) + Pending(s'.writers[w].phase)
  }

  lemma WriteKeepsShare(c: Codec, s: Sys, t: Turn, w: nat)
    requires MirrorSound(s) && Enabled(s, t) && w < |s.writers| && t.step.Write?
    ensures var s' := Next(c, s, t); |s'.primary| == |s'.primaryBy| && |s'.writers| == |s.writers| && ShareKept(s', w)
  {
    var m := Of(s.mirror, s.mirrorBy, w);
    OfSnoc(s.primary, s.primaryBy, c.write(s.writers[t.w].phase.entry), t.w, w);
    assert Of(s.primary, s.primaryBy, w) == m + Pending(s.writers[w].phase);
    assert m + [] == m;
  }

  lemma MirrorKeepsShare(c: Codec, s: Sys, t: Turn, w: nat)
    requires MirrorSound(s) && Enabled(s, t) && w < |s.writers| && t.step.Mirror?
    ensures var s' := Next(c, s, t); |s'.mirror| == |s'.mirrorBy| && |s'.writers| == |s.writers| && ShareKept(s', w)
  {
    var m, line := Of(s.mirror, s.mirrorBy, w), s.writers[t.w].phase.line;
    OfSnoc(s.mirror, s.mirrorBy, line, t.w, w);
    assert Of(s.primary, s.primaryBy, w) == m + Pending(s.writers[w].phase);
    assert m + [line] + [] == m + [line];
  }

  lemma StepKeepsShare(c: Codec, s: Sys, t: Turn, w: nat)
    requires MirrorSound(s) && Enabled(s, t) && w < |s.writers|
    ensures var s' := Next(c, s, t);
      |s'.primary| == |s'.primaryBy| && |s'.mirror| == |s'.mirrorBy| && |s'.writers| == |s.writers| && ShareKept(s', w)
  {
    if t.step.Write? {
      WriteKeepsShare(c, s, t, w);
    } else if t.step.Mirror? {
      MirrorKeepsShare(c, s, t, w);
    } else {
      assert Of(s.primary, s.primaryBy, w) == Of(s.mirror, s.mirrorBy, w) + Pending(s.writers[w].phase);
    }
  }

  lemma StepKeepsTags(c: Codec, s: Sys, t: Turn)
    requires MirrorSound(s) && Enabled(s, t)
    ensures var s' := Next(c, s, t);
      && |s'.primary| == |s'.primaryBy| && |s'.mirror| == |s'.mirrorBy|
      && (forall i :: 0 <= i < |s'.primaryBy| ==> s'.primaryBy[i] < |s'.writers|)
      && (forall i :: 0 <= i < |s'.mirrorBy| ==> s'.mirrorBy[i] < |s'.writers|)
  {}

  lemma StepKeepsMirror(c: Codec, s: Sys, t: Turn)
    requires MirrorSound(s) && Enabled(s, t)
    ensures MirrorSound(Next(c, s, t))
  {
    var s' := Next(c, s, t);
    StepKeepsTags(c, s, t);
    forall w | 0 <= w < |s'.writers|
      ensures Of(s'.primary, s'.primaryBy, w) == Of(s'.mirror, s'.mirrorBy, w) + Pending(s'.writers[w].phase)
    {
      StepKeepsShare(c, s, t, w);
    }
  }

  lemma StepKeepsCounts(c: Codec, s: Sys, t: Turn)
    requires MirrorCounts(s) && Enabled(s, t)
    ensures MirrorCounts(Next(c, s, t))
  {
    var s' := Next(c, s, t);
    var after := s'.writers[t.w];
    assert s'.writers == s.writers[t.w := after];
    forall x ensures multiset(s'.primary)[x] == multiset(s'.mirror)[x] + PendingCount(s'.writers, x) {
      assert multiset(s.primary)[x] == multiset(s.mirror)[x] + PendingCount(s.writers, x);
      PendingCountUpdate(s.writers, t.w, after, x);
    }
  }

  lemma NextKeepsWriters(c: Codec, s: Sys, t: Turn)
    requires Enabled(s, t)
    ensures |Next(c, s, t).writers| == |s.writers|
  {}

  /** Whatever the interleaving, each writer's lines reach the mirror in the order it wrote
      them, and the mirror together with the lines still to be mirrored is a permutation
      of the primary file. */
  lemma {:induction false} MirrorIsPermutation(c: Codec, n: nat, turns: seq<Turn>, s: Sys)
    requires Reaches(c, n, turns, s)
    ensures |s.writers| == n && MirrorSound(s) && MirrorCounts(s)
    decreases |turns|
  {
    if turns == [] {
      forall x { PendingCountIdle(s.writers, x); }
    } else {
      var k := |turns| - 1;
      var s0 :| Reaches(c, n, turns[..k], s0) && Enabled(s0, turns[k]) && s == Next(c, s0, turns[k]);
      MirrorIsPermutation(c, n, turns[..k], s0);
      StepKeepsMirror(c, s0, turns[k]);
      StepKeepsCounts(c, s0, turns[k]);
      NextKeepsWriters(c, s0, turns[k]);
    }
  }

  ghost predicate AtRest(s: Sys) {
    forall i :: 0 <= i < |s.writers| ==> Pending(s.writers[i].phase) == []
  }

  lemma DropLast(x: seq<string>, a: string, y: seq<string>, b: string)
    requires x + [a] == y + [b]
    ensures x == y && a == b
  {
    assert (x + [a])[..|x|] == x && (y + [b])[..|y|] == y;
    assert (x + [a])[|x|] == a && (y + [b])[|y|] == b;
    assert |x + [a]| == |x| + 1 && |y + [b]| == |y| + 1;
  }

  /** Two files tagged alike, with the same lines for every tag, are the same file. */
  lemma {:induction false} SameTagsSameLines(a: seq<string>, b: seq<string>, tags: seq<nat>)
    requires |a| == |b| == |tags|
    requires forall w: nat :: Of(a, tags, w) == Of(b, tags, w)
    ensures a == b
  {
    if a != [] {
      var k := |a| - 1;
      forall w: nat ensures Of(a[..k], tags[..k], w) == Of(b[..k], tags[..k], w) {
        var last := tags[k];
        assert Of(a, tags, w) == Of(b, tags, w);
        if last == w {
          DropLast(Of(a[..k], tags[..k], w), a[k], Of(b[..k], tags[..k], w), b[k]);
        } else {
          assert Of(a[..k], tags[..k], w) + [] == Of(a[..k], tags[..k], w);
          assert Of(b[..k], tags[..k], w) + [] == Of(b[..k], tags[..k], w);
        }
      }
      var w := tags[k];
      assert Of(a, tags, w) == Of(b, tags, w);
      assert Of(a, tags, w)[|Of(a, tags, w)| - 1] == a[k];
      SameTagsSameLines(a[..k], b[..k], tags[..k]);
      assert a == a[..k] + [a[k]] && b == b[..k] + [b[k]];
    }
  }

  lemma {:induction false} OfMember(lines: seq<string>, tags: seq<nat>, w: nat, x: string)
    requires |lines| == |tags|
    ensures x in Of(lines, tags, w) <==> exists j :: 0 <= j < |lines| && lines[j] == x && tags[j] == w
  {
    if lines != [] {
      var k := |lines| - 1;
      OfMember(lines[..k], tags[..k], w, x);
      if exists j :: 0 <= j < |lines| && lines[j] == x && tags[j] == w {
        var j :| 0 <= j < |lines| && lines[j] == x && tags[j] == w;
        if j < k {
          assert lines[..k][j] == x && tags[..k][j] == w;
        }
      }
    }
  }

  /** Verified lines are pairwise different: each carries its own sequence number. */
  lemma LinesDistinct(c: Codec, lines: seq<string>, i: nat, j: nat)
    requires ReadEntries(c, lines).Ok? && Chained(c, ReadEntries(c, lines).value)
    requires i < j < |lines|
    ensures lines[i] != lines[j]
  {
    var es := ReadEntries(c, lines).value;
    LineAt(c, lines, i);
    LineAt(c, lines, j);
    assert es[i].seqNo == i && es[j].seqNo == j;
  }

  lemma LineAt(c: Codec, lines: seq<string>, i: nat)
    requires ReadEntries(c, lines).Ok? && i < |lines|
    ensures c.read(lines[i]) == Ok(ReadEntries(c, lines).value[i])
  {
    ReadEntriesPrefix(c, lines, i + 1);
    assert lines[..i + 1] == lines[..i] + [lines[i]];
    ReadEntriesSnoc(c, lines[..i], lines[i]);
  }

  lemma OrderForcesTags(c: Codec, s: Sys)
    requires PrimarySound(c, s) && MirrorSound(s) && AtRest(s) && s.mirror == s.primary
    ensures s.mirrorBy == s.primaryBy
  {
    forall i | 0 <= i < |s.primary| ensures s.mirrorBy[i] == s.primaryBy[i] {
      var m, x := s.mirrorBy[i], s.mirror[i];
      OfMember(s.mirror, s.mirrorBy, m, x);
      OfMember(s.primary, s.primaryBy, m, x);
      assert Of(s.primary, s.primaryBy, m) == Of(s.mirror, s.mirrorBy, m) + Pending(s.writers[m].phase);
      var j :| 0 <= j < |s.primary| && s.primary[j] == x && s.primaryBy[j] == m;
      if j < i {
        LinesDistinct(c, s.primary, j, i);
      } else if i < j {
        LinesDistinct(c, s.primary, i, j);
      }
    }
  }

  lemma {:induction false} OfNobody(lines: seq<string>, tags: seq<nat>, w: nat)
    requires |lines| == |tags| && w !in tags
    ensures Of(lines, tags, w) == []
  {
    if lines != [] {
      var k := |lines| - 1;
      assert tags[k] in tags;
      OfNobody(lines[..k], tags[..k], w);
    }
  }

  /** With every append finished, check_mirror accepts exactly when the mirror writes
      happened in the order of the primary writes, which the lock does not enforce. */
  lemma MirrorAgreesIffOrdered(c: Codec, n: nat, turns: seq<Turn>, s: Sys)
    requires c.Lawful() && Reaches(c, n, turns, s) && AtRest(s)
    ensures s.mirror == s.primary <==> s.mirrorBy == s.primaryBy
  {
    InterleavedAppendsChain(c, n, turns, s);
    MirrorIsPermutation(c, n, turns, s);
    if s.mirrorBy == s.primaryBy {
      forall w: nat ensures Of(s.primary, s.primaryBy, w) == Of(s.mirror, s.primaryBy, w) {
        if w < |s.writers| {
          assert Of(s.primary, s.primaryBy, w) == Of(s.mirror, s.mirrorBy, w) + Pending(s.writers[w].phase);
        } else {
          OfNobody(s.primary, s.primaryBy, w);
          OfNobody(s.mirror, s.mirrorBy, w);
        }
      }
      SameTagsSameLines(s.primary, s.mirror, s.primaryBy);
    }
    if s.mirror == s.primary {
      OrderForcesTags(c, s);
    }
  }

  /** One writer at rest always leaves a mirror that check_mirror accepts. */
  lemma SingleWriterMirrors(c: Codec, turns: seq<Turn>, s: Sys)
    requires c.Lawful() && Reaches(c, 1, turns, s) && AtRest(s)
    ensures s.mirror == s.primary
  {
    MirrorIsPermutation(c, 1, turns, s);
    forall x { PendingCountIdle(s.writers, x); }
    assert multiset(s.primary) == multiset(s.mirror);
    assert |multiset(s.primary)| == |s.primary| && |multiset(s.mirror)| == |s.mirror|;
    assert forall i :: 0 <= i < |s.primary| ==> s.primaryBy[i] == 0 && s.mirrorBy[i] == 0;
    MirrorAgreesIffOrdered(c, 1, turns, s);
  }

  // ---------- two honest writers can leave a mirror that is refused ----------

  lemma Extend(c: Codec, n: nat, turns: seq<Turn>, s: Sys, t: Turn)
    requires Reaches(c, n, turns, s) && Enabled(s, t)
    ensures Reaches(c, n, turns + [t], Next(c, s, t))
  {
    assert (turns + [t])[..|turns|] == turns;
  }

  lemma TakeTurn(c: Codec, n: nat, turns: seq<Turn>, s: Sys, w: nat, step: Step) returns (turns': seq<Turn>, s': Sys)
    requires Reaches(c, n, turns, s) && Enabled(s, Turn(w, step))
    ensures s' == Next(c, s, Turn(w, step)) && Reaches(c, n, turns', s')
  {
    turns', s' := turns + [Turn(w, step)], Next(c, s, Turn(w, step));
    Extend(c, n, turns, s, Turn(w, step));
  }

  /** One whole append up to the release of the lock. */
  lemma AppendUnmirrored(c: Codec, n: nat, turns: seq<Turn>, s: Sys, w: nat)
    returns (turns': seq<Turn>, s': Sys)
    requires Reaches(c, n, turns, s) && w < |s.writers| && s.writers[w].phase.Idle? && s.lock.None?
    ensures Reaches(c, n, turns', s')
    ensures s'.lock.None? && s'.primaryBy == s.primaryBy + [w]
    ensures s'.mirrorBy == s.mirrorBy && |s'.writers| == |s.writers|
    ensures s'.writers[w].phase.Mirroring?
    ensures forall i :: 0 <= i < |s.writers| && i != w ==> s'.writers[i] == s.writers[i]
  {
    turns', s' := TakeTurn(c, n, turns, s, w, Acquire);
    turns', s' := TakeTurn(c, n, turns', s', w, Prepare(0, "orchestrator", "cold_start", map[]));
    turns', s' := TakeTurn(c, n, turns', s', w, Write);
    turns', s' := TakeTurn(c, n, turns', s', w, Release);
  }

  lemma TwoWritersDiverge(c: Codec) returns (turns: seq<Turn>, s: Sys)
    requires c.Lawful()
    ensures Reaches(c, 2, turns, s) && AtRest(s) && s.mirror != s.primary
  {
    turns, s := [], Start(2);
    turns, s := AppendUnmirrored(c, 2, turns, s, 0);
    turns, s := AppendUnmirrored(c, 2, turns, s, 1);
    Extend(c, 2, turns, s, Turn(1, Mirror));
    turns, s := turns + [Turn(1, Mirror)], Next(c, s, Turn(1, Mirror));
    Extend(c, 2, turns, s, Turn(0, Mirror));
    turns, s := turns + [Turn(0, Mirror)], Next(c, s, Turn(0, Mirror));
    assert s.primaryBy == [0, 1] && s.mirrorBy == [1, 0];
    assert s.primaryBy[0] != s.mirrorBy[0];
    MirrorAgreesIffOrdered(c, 2, turns, s);
  }
}
