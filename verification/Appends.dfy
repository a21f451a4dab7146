/** What interleaved writers leave in the log is what they were asked to append (audit.py:
    AuditLog.append): no entry is lost, doubled or altered, and each writer's come in order. */
module Appends {
  import opened Basics
  import opened JsonText
  import opened AuditChain
  import opened Audit
  import opened AuditWriters

  /** What a caller of `append` asks to be written. */
  datatype Call = Call(ts: int, actor: string, event: string, fields: map<string, Json>)

  function CallOf(e: Entry): Call {
    Call(e.ts, e.actor, e.event, e.fields)
  }

  /** What one turn of a writer asks for. */
  function Asked(t: Turn, w: nat): seq<Call> {
    match t.step
    case Prepare(ts, actor, event, fields) => if t.w == w then [Call(ts, actor, event, fields)] else []
    case _ => []
  }

  /** The calls of one writer, in order. */
  function Calls(turns: seq<Turn>, w: nat): seq<Call> {
    if turns == [] then [] else Calls(turns[..|turns| - 1], w) + Asked(turns[|turns| - 1], w)
  }

  /** What the entries of one writer say, in their order. */
  function Entered(es: seq<Entry>, tags: seq<nat>, w: nat): seq<Call>
    requires |es| == |tags|
  {
    if es == [] then []
    else
      var k := |es| - 1;
      Entered(es[..k], tags[..k], w) + (if tags[k] == w then [CallOf(es[k])] else [])
  }

  /** The entry that a writer has prepared and not yet written. */
  function Unwritten(p: Phase): seq<Call> {
    match p
    case Prepared(e) => [CallOf(e)]
    case _ => []
  }

  lemma EnteredSnoc(es: seq<Entry>, tags: seq<nat>, e: Entry, tag: nat, w: nat)
    requires |es| == |tags|
    ensures Entered(es + [e], tags + [tag], w) == Entered(es, tags, w) + (if tag == w then [CallOf(e)] else [])
  {
    assert (es + [e])[..|es|] == es && (tags + [tag])[..|tags|] == tags;
  }

  /** One writer's calls so far are its entries and what it still has to write. */
  ghost predicate Accounted(c: Codec, s: Sys, w: nat, calls: seq<Call>) {
    && ReadEntries(c, s.primary).Ok? && |s.primary| == |s.primaryBy| && w < |s.writers|
    && Entered(ReadEntries(c, s.primary).value, s.primaryBy, w) + Unwritten(s.writers[w].phase) == calls
  }

  lemma WriteAccounts(c: Codec, s: Sys, t: Turn, w: nat, calls: seq<Call>)
    requires c.Lawful() && PrimarySound(c, s) && Enabled(s, t) && t.step.Write? && Accounted(c, s, w, calls)
    ensures Accounted(c, Next(c, s, t), w, calls)
  {
    var e, es := s.writers[t.w].phase.entry, ReadEntries(c, s.primary).value;
    WriterStays(c, s, t);
    LineAdded(c, s.primary, e);
    EnteredSnoc(es, s.primaryBy, e, t.w, w);
    var before := Entered(es, s.primaryBy, w);
    assert before + [] == before && before + [CallOf(e)] + [] == before + [CallOf(e)];
  }

  lemma OtherAccounts(c: Codec, s: Sys, t: Turn, w: nat, calls: seq<Call>)
    requires Enabled(s, t) && !t.step.Write? && Accounted(c, s, w, calls)
    ensures Accounted(c, Next(c, s, t), w, calls + Asked(t, w))
  {
    var before := Entered(ReadEntries(c, s.primary).value, s.primaryBy, w);
    assert before + [] == before && calls + [] == calls;
  }

  lemma StepAccounts(c: Codec, s: Sys, t: Turn, w: nat, calls: seq<Call>)
    requires c.Lawful() && PrimarySound(c, s) && Enabled(s, t) && Accounted(c, s, w, calls)
    ensures Accounted(c, Next(c, s, t), w, calls + Asked(t, w))
  {
    if t.step.Write? {
      WriteAccounts(c, s, t, w, calls);
      assert calls + [] == calls;
    } else {
      OtherAccounts(c, s, t, w, calls);
    }
  }

  /** However the writers interleave, the entries of each are exactly what it was asked to
      append, in that order, but for the one it has prepared and not yet written. */
  lemma {:induction false} NothingLostOrInvented(c: Codec, n: nat, turns: seq<Turn>, s: Sys, w: nat)
    requires c.Lawful() && Reaches(c, n, turns, s) && w < n
    ensures Accounted(c, s, w, Calls(turns, w))
    decreases |turns|
  {
    if turns != [] {
      var k := |turns| - 1;
      var s0 :| Reaches(c, n, turns[..k], s0) && Enabled(s0, turns[k]) && s == Next(c, s0, turns[k]);
      InterleavedAppendsChain(c, n, turns[..k], s0);
      NothingLostOrInvented(c, n, turns[..k], s0, w);
      StepAccounts(c, s0, turns[k], w, Calls(turns[..k], w));
    }
  }

  /** With every append finished, a writer's entries are its calls. */
  lemma AllEntered(c: Codec, n: nat, turns: seq<Turn>, s: Sys, w: nat)
    requires c.Lawful() && Reaches(c, n, turns, s) && w < n && w < |s.writers| && s.writers[w].phase.Idle?
    ensures ReadEntries(c, s.primary).Ok? && |s.primary| == |s.primaryBy|
    ensures Entered(ReadEntries(c, s.primary).value, s.primaryBy, w) == Calls(turns, w)
  {
    NothingLostOrInvented(c, n, turns, s, w);
    var es := Entered(ReadEntries(c, s.primary).value, s.primaryBy, w);
    assert es + [] == es;
  }
}
