/** Who wrote the entries of the audit log, and when (dispatch.py: ACTOR; audit.py: append). */
module Stamps {
  import opened AuditChain

  /** es' adds to es only entries by the orchestrator, at this clock reading. */
  ghost predicate StampedBy(es: seq<Entry>, es': seq<Entry>, ts: int) {
    es <= es' && forall i :: |es| <= i < |es'| ==> es'[i].actor == "orchestrator" && es'[i].ts == ts
  }

  lemma OneStamp(es: seq<Entry>, e: Entry, ts: int)
    requires e.actor == "orchestrator" && e.ts == ts
    ensures StampedBy(es, es + [e], ts)
  {}

  lemma StampsJoin(a: seq<Entry>, b: seq<Entry>, c: seq<Entry>, ts: int)
    requires StampedBy(a, b, ts) && StampedBy(b, c, ts)
    ensures StampedBy(a, c, ts)
  {
    assert forall i :: |a| <= i < |b| ==> c[i] == b[i];
  }

  // ---------- both files ----------

  /** The lines of the two files, and the entries of the primary. */
  datatype Files = Files(primary: seq<string>, mirror: seq<string>, entries: seq<Entry>)

  /** Only entries by the orchestrator at this clock reading were added, and each new line of
      the primary went to the mirror as well, if there is one. */
  ghost predicate Wrote(a: Files, b: Files, mirrored: bool, ts: int) {
    && StampedBy(a.entries, b.entries, ts) && a.primary <= b.primary
    && b.mirror == a.mirror + if mirrored then b.primary[|a.primary|..] else []
  }

  lemma OneLine(a: Files, b: Files, mirrored: bool, line: string, e: Entry, ts: int)
    requires e.actor == "orchestrator" && e.ts == ts && b.entries == a.entries + [e] && b.primary == a.primary + [line]
    requires b.mirror == if mirrored then a.mirror + [line] else a.mirror
    ensures Wrote(a, b, mirrored, ts)
  {
    OneStamp(a.entries, e, ts);
    assert b.primary[|a.primary|..] == [line];
  }

  lemma WroteNothing(a: Files, mirrored: bool, ts: int)
    ensures Wrote(a, a, mirrored, ts)
  {}

  lemma WroteBoth(a: Files, b: Files, c: Files, mirrored: bool, ts: int)
    requires Wrote(a, b, mirrored, ts) && Wrote(b, c, mirrored, ts)
    ensures Wrote(a, c, mirrored, ts)
  {
    StampsJoin(a.entries, b.entries, c.entries, ts);
    assert c.primary[|a.primary|..] == b.primary[|a.primary|..] + c.primary[|b.primary|..];
  }

  /** So the mirror agrees with the primary after it if it did before. */
  lemma MirrorStays(a: Files, b: Files, ts: int)
    requires Wrote(a, b, true, ts) && a.mirror == a.primary
    ensures b.mirror == b.primary
  {
    assert b.primary == a.primary + b.primary[|a.primary|..];
  }

  // ---------- the clock ----------

  /** The timestamps never go down, and none is later than this. */
  ghost predicate InTime(es: seq<Entry>, now: int) {
    && (forall i, j :: 0 <= i < j < |es| ==> es[i].ts <= es[j].ts)
    && forall i :: 0 <= i < |es| ==> es[i].ts <= now
  }

  lemma StampKeepsTime(es: seq<Entry>, es': seq<Entry>, before: int, ts: int)
    requires InTime(es, before) && before <= ts && StampedBy(es, es', ts)
    ensures InTime(es', ts)
  {
    forall i, j | 0 <= i < j < |es'| ensures es'[i].ts <= es'[j].ts {
      assert i < |es| ==> es'[i] == es[i];
      assert j < |es| ==> es'[j] == es[j];
    }
    forall i | 0 <= i < |es'| ensures es'[i].ts <= ts {
      assert i < |es| ==> es'[i] == es[i];
    }
  }

  /** Clock readings that never go backwards, from `start` on. */
  predicate Ascending(times: seq<int>, start: int) {
    && (forall i :: 0 <= i < |times| ==> start <= times[i])
    && forall i, j :: 0 <= i < j < |times| ==> times[i] <= times[j]
  }

  /** The files before, between and after operations that were called at these times. */
  ghost predicate CalledAt(files: seq<Files>, times: seq<int>, mirrored: bool) {
    |files| == |times| + 1 && forall k :: 0 <= k < |times| ==> Wrote(files[k], files[k + 1], mirrored, times[k])
  }

  /** Operations called with clock readings that never go backwards leave the file, after each
      of them, with its timestamps in order. */
  lemma {:induction false} TimesStayInOrder(files: seq<Files>, times: seq<int>, mirrored: bool, start: int, k: nat)
    requires CalledAt(files, times, mirrored) && Ascending(times, start) && InTime(files[0].entries, start) && k <= |times|
    ensures InTime(files[k].entries, if k == 0 then start else times[k - 1])
  {
    if k > 0 {
      TimesStayInOrder(files, times, mirrored, start, k - 1);
      assert Wrote(files[k - 1], files[k - 1 + 1], mirrored, times[k - 1]);
      StampKeepsTime(files[k - 1].entries, files[k].entries, if k == 1 then start else times[k - 2], times[k - 1]);
    }
  }
}
