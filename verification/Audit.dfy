/** The audit log object (audit.py: AuditLog) over its two files, kept as lists of lines. */
module Audit {
  import opened Basics
  import opened JsonText
  import opened AuditChain

  /** Bytes in the file, one character counted as one byte. */
  function Size(lines: seq<string>): nat {
    if lines == [] then 0 else Size(lines[..|lines| - 1]) + |lines[|lines| - 1]| + 1
  }

  lemma SizeSnoc(lines: seq<string>, line: string)
    ensures Size(lines + [line]) == Size(lines) + |line| + 1
  {
    assert (lines + [line])[..|lines|] == lines;
  }

  /** The file only grows: a proper prefix is strictly smaller. */
  lemma {:induction false} SizeGrows(lines: seq<string>, n: nat)
    requires n <= |lines|
    ensures Size(lines[..n]) <= Size(lines)
    ensures n < |lines| ==> Size(lines[..n]) < Size(lines)
  {
    if n == |lines| {
      assert lines[..n] == lines;
    } else {
      var m := |lines| - 1;
      SizeGrows(lines[..m], n);
      assert lines[..m][..n] == lines[..n];
    }
  }

  function Last(es: seq<Entry>): Option<Entry> {
    if es == [] then None else Some(es[|es| - 1])
  }

  function NextEntry(codec: Codec, head: Option<Entry>, ts: int, actor: string, event: string,
                     fields: map<string, Json>): Entry {
    match head
    case None => Entry(0, ts, actor, event, GENESIS, fields)
    case Some(h) => Entry(h.seqNo + 1, ts, actor, event, codec.Hash(h), fields)
  }

  lemma NextEntryChains(codec: Codec, es: seq<Entry>, e: Entry)
    requires Chained(codec, es)
    requires e == NextEntry(codec, Last(es), e.ts, e.actor, e.event, e.fields)
    ensures Chained(codec, es + [e]) && e.seqNo == |es|
  {
    ChainedSnoc(codec, es, e);
    assert es != [] ==> es[|es| - 1].seqNo == |es| - 1;
  }

  lemma NextKeepsChain(codec: Codec, es: seq<Entry>, e: Entry)
    requires e == NextEntry(codec, Last(es), e.ts, e.actor, e.event, e.fields)
    ensures Chained(codec, es) ==> Chained(codec, es + [e]) && e.seqNo == |es|
  {
    if Chained(codec, es) { NextEntryChains(codec, es, e); }
  }

  /** The file after one more written line. */
  lemma LineAdded(codec: Codec, lines: seq<string>, e: Entry)
    requires codec.Lawful() && ReadEntries(codec, lines).Ok?
    requires codec.read(codec.write(e)) == Ok(e)
    ensures var es := ReadEntries(codec, lines).value;
      ReadEntries(codec, lines + [codec.write(e)]) == Ok(es + [e]) && Last(es + [e]) == Some(e)
    ensures Size(lines + [codec.write(e)]) > Size(lines)
  {
    ReadEntriesSnoc(codec, lines, codec.write(e));
    SizeSnoc(lines, codec.write(e));
  }

  /** The primary file and the mirror file. */
  class Disk {
    var primary: seq<string>
    var mirror: seq<string>

    constructor ()
      ensures primary == [] && mirror == []
    {
      primary, mirror := [], [];
    }
  }

  class AuditLog {
    const disk: Disk
    const mirrored: bool
    const codec: Codec
    var cachedHead: Option<Entry>
    var cachedSize: int

    /** The cache is never ahead of the file, and a cache as large as the file is right. */
    ghost predicate Honest()
      reads this, disk
    {
      && codec.Lawful()
      && cachedSize <= Size(disk.primary)
      && (cachedSize == Size(disk.primary) ==>
            ReadEntries(codec, disk.primary).Ok? && cachedHead == Last(ReadEntries(codec, disk.primary).value))
    }

    /** The file parses and chains, so that `append` cannot fail on reading it. */
    ghost predicate Valid()
      reads this, disk
    {
      && Honest()
      && ReadEntries(codec, disk.primary).Ok?
      && Chained(codec, Entries())
    }

    ghost function Entries(): seq<Entry>
      requires ReadEntries(codec, disk.primary).Ok?
      reads disk
    {
      ReadEntries(codec, disk.primary).value
    }

    constructor (disk: Disk, mirrored: bool, codec: Codec)
      requires codec.Lawful()
      ensures this.disk == disk && this.mirrored == mirrored && this.codec == codec
      ensures Honest()
    {
      this.disk, this.mirrored, this.codec := disk, mirrored, codec;
      cachedHead, cachedSize := None, -1;
    }

    /** The last entry, rescanned only when the file size changed. With an honest cache
        the answer is the last entry of the file whenever the cache is used. */
    method Head() returns (r: Result<Option<Entry>>)
      requires Honest()
      modifies this`cachedHead, this`cachedSize
      ensures Honest()
      ensures match ReadEntries(codec, disk.primary)
        case Ok(es) => r == Ok(Last(es)) && cachedSize == Size(disk.primary)
        case Err(x) => r == Err(x) && cachedSize == old(cachedSize) && cachedHead == old(cachedHead)
    {
      var size := Size(disk.primary);
      if size == cachedSize {
        return Ok(cachedHead);
      }
      var read := ReadEntries(codec, disk.primary);
      if read.Err? {
        return Err(read.error);
      }
      cachedHead, cachedSize := Last(read.value), size;
      r := Ok(cachedHead);
    }

    method NextSeq() returns (r: Result<int>)
      requires Honest()
      modifies this`cachedHead, this`cachedSize
      ensures Honest()
      ensures match ReadEntries(codec, disk.primary)
        case Ok(es) => r == Ok(if es == [] then 0 else es[|es| - 1].seqNo + 1)
        case Err(x) => r == Err(x)
    {
      var head := Head();
      r := match head
        case Err(x) => Err(x)
        case Ok(None) => Ok(0)
        case Ok(Some(e)) => Ok(e.seqNo + 1);
    }

    /** Append one entry chained to the head, then write the same line to the mirror. */
    method Append(ts: int, actor: string, event: string, fields: map<string, Json>)
      returns (r: Result<Entry>)
      requires Honest()
      modifies this`cachedHead, this`cachedSize, disk
      ensures Honest()
      ensures r.Ok? <==> fields.Keys !! CORE && ReadEntries(codec, old(disk.primary)).Ok?
      ensures r.Err? ==> r == Err(AuditChainError)
      ensures r.Err? ==> disk.primary == old(disk.primary) && disk.mirror == old(disk.mirror)
      ensures r.Ok? ==>
        var es := ReadEntries(codec, old(disk.primary)).value;
        && r.value == NextEntry(codec, Last(es), ts, actor, event, fields)
        && disk.primary == old(disk.primary) + [codec.write(r.value)]
        && disk.mirror == (if mirrored then old(disk.mirror) + [codec.write(r.value)] else old(disk.mirror))
        && ReadEntries(codec, disk.primary) == Ok(es + [r.value])
      ensures r.Ok? && old(Valid()) ==> Valid() && r.value.seqNo == |old(Entries())|
    {
      if !(fields.Keys !! CORE) {
        return Err(AuditChainError);
      }
      var head := Head();
      if head.Err? {
        ReadErrorsAreChainErrors(codec, disk.primary);
        return Err(head.error);
      }
      ghost var es := ReadEntries(codec, disk.primary).value;
      var entry := NextEntry(codec, head.value, ts, actor, event, fields);
      WriteBoth(entry);
      NextKeepsChain(codec, es, entry);
      r := Ok(entry);
    }

    /** Write the line to the primary, remember it as the head, then mirror it. */
    method WriteBoth(entry: Entry)
      requires Honest() && Plain(entry) && ReadEntries(codec, disk.primary).Ok?
      modifies this`cachedHead, this`cachedSize, disk
      ensures Honest()
      ensures disk.primary == old(disk.primary) + [codec.write(entry)]
      ensures disk.mirror == if mirrored then old(disk.mirror) + [codec.write(entry)] else old(disk.mirror)
      ensures ReadEntries(codec, disk.primary) == Ok(ReadEntries(codec, old(disk.primary)).value + [entry])
    {
      var line := codec.write(entry);
      LineAdded(codec, disk.primary, entry);
      disk.primary := disk.primary + [line];
      cachedHead, cachedSize := Some(entry), Size(disk.primary);
      if mirrored {
        disk.mirror := disk.mirror + [line];
      }
    }

    /** Replay the chain. It returns the entry count exactly for a file that parses and
        chains, and refuses every other file with the one error of this class. */
    method VerifyChain() returns (r: Result<nat>)
      ensures r.Ok? <==> ReadEntries(codec, disk.primary).Ok? && Chained(codec, ReadEntries(codec, disk.primary).value)
      ensures r == Ok(|disk.primary|) || r == Err(AuditChainError)
    {
      var lines := disk.primary;
      var expectedPrev := GENESIS;
      var count := 0;
      ghost var es: seq<Entry> := [];
      assert lines[..0] == [];
      while count < |lines|
        invariant 0 <= count <= |lines|
        invariant ReadEntries(codec, lines[..count]) == Ok(es) && |es| == count
        invariant Chained(codec, es)
        invariant expectedPrev == Link(codec, es, count)
      {
        var read := codec.read(lines[count]);
        assert lines[..count + 1] == lines[..count] + [lines[count]];
        ReadEntriesSnoc(codec, lines[..count], lines[count]);
        if read.Err? || read.value.seqNo != count || read.value.prevHash != expectedPrev {
          RefusalIsFinal(codec, lines, count, es);
          return Err(AuditChainError);
        }
        ChainedSnoc(codec, es, read.value);
        es := es + [read.value];
        expectedPrev := codec.Hash(read.value);
        count := count + 1;
      }
      assert lines[..count] == lines;
      r := Ok(count);
    }

    /** Compare the two files line by line; without a mirror there is nothing to compare. */
    method CheckMirror() returns (r: Result<()>)
      ensures r.Ok? <==> !mirrored || disk.primary == disk.mirror
      ensures r.Ok? || r == Err(AuditDivergenceError)
    {
      if !mirrored {
        return Ok(());
      }
      if |disk.mirror| != |disk.primary| {
        return Err(AuditDivergenceError);
      }
      for i := 0 to |disk.primary|
        invariant disk.primary[..i] == disk.mirror[..i]
      {
        if disk.primary[i] != disk.mirror[i] {
          return Err(AuditDivergenceError);
        }
      }
      r := Ok(());
    }
  }

  /** A line refused at position n refuses the whole file. */
  lemma RefusalIsFinal(codec: Codec, lines: seq<string>, n: nat, es: seq<Entry>)
    requires n < |lines| && ReadEntries(codec, lines[..n]) == Ok(es) && |es| == n
    requires var read := codec.read(lines[n]);
      read.Err? || read.value.seqNo != n || read.value.prevHash != Link(codec, es, n)
    ensures !(ReadEntries(codec, lines).Ok? && Chained(codec, ReadEntries(codec, lines).value))
  {
    if ReadEntries(codec, lines).Ok? {
      var all := ReadEntries(codec, lines).value;
      ReadEntriesPrefix(codec, lines, n + 1);
      ReadEntriesPrefix(codec, lines, n);
      assert lines[..n + 1] == lines[..n] + [lines[n]];
      ReadEntriesSnoc(codec, lines[..n], lines[n]);
      assert all[..n + 1][n] == all[n];
      assert n > 0 ==> all[n - 1] == all[..n][n - 1];
    }
  }
}
