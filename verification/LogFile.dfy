/** The engine's log as a file: what the writer has on disk after the engine's
    commits and flushes, and what a reader of that file gets. */
module LogFile {
  import opened Machine
  import opened Handshake
  import opened Numerals
  import opened Jsonl
  import opened Json
  import opened Stream

  /** All sequence numbers are 64-bit values. */
  ghost predicate Fits(log: seq<Entry>) {
    forall a :: 0 <= a < |log| ==> log[a].seqNo <= MAX_WORD
  }

  /** The log as text. */
  function TextOf(log: seq<Entry>): (s: string)
    requires Fits(log)
  {
    FileText(LogItems(log))
  }

  lemma {:induction false} FileTextSnoc(items: seq<Item>, it: Item)
    ensures FileText(items + [it]) == FileText(items) + ItemText(it)
    decreases |items|
  {
    if items == [] {
      assert (items + [it])[1..] == [];
    } else {
      FileTextSnoc(items[1..], it);
      assert (items + [it])[1..] == items[1..] + [it];
    }
  }

  lemma TextSnoc(log: seq<Entry>, e: Entry)
    requires Fits(log + [e])
    ensures Fits(log) && e.seqNo <= MAX_WORD && TextOf(log + [e]) == TextOf(log) + Line(RecordOf(e))
  {
    assert (log + [e])[|log|] == e;
    forall a | 0 <= a < |log| ensures log[a].seqNo <= MAX_WORD { assert (log + [e])[a] == log[a]; }
    assert LogItems(log + [e]) == LogItems(log) + [Record(RecordOf(e))];
    FileTextSnoc(LogItems(log), Record(RecordOf(e)));
  }

  lemma TextNext(log: seq<Entry>, n: nat)
    requires Fits(log) && n < |log|
    ensures TextOf(log[..n + 1]) == TextOf(log[..n]) + Line(RecordOf(log[n]))
  {
    assert log[..n + 1] == log[..n] + [log[n]];
    TextSnoc(log[..n], log[n]);
  }

  /** One commit of the engine: the entry's record goes to the writer. */
  method Append(w: StationWriter, log: seq<Entry>, n: nat)
    requires w.Valid() && Fits(log) && n < |log| && w.Contents() == TextOf(log[..n])
    modifies w
    ensures w.Valid() && old(w.disk) <= w.disk && w.Contents() == TextOf(log[..n + 1])
  {
    TextNext(log, n);
    var e := log[n];
    w.WriteSafeSlot(e.probe, e.seqNo, e.data.tid, e.data.addr, e.data.active, e.data.ts);
  }

  /** The commits of entries `from` to `to - 1` of a log. */
  method AppendAll(w: StationWriter, log: seq<Entry>, from: nat, to: nat)
    requires w.Valid() && Fits(log) && from <= to <= |log| && w.Contents() == TextOf(log[..from])
    modifies w
    ensures w.Valid() && old(w.disk) <= w.disk && w.Contents() == TextOf(log[..to])
  {
    for n := from to to
      invariant w.Valid() && old(w.disk) <= w.disk && w.Contents() == TextOf(log[..n])
    {
      Append(w, log, n);
    }
  }

  /** What the engine leaves in its file: the text of its log, with at least the flushed part on
      disk. */
  ghost predicate Saved(s: State, disk: string, buffer: string) {
    Fits(s.log) && s.flushed <= |s.log| && disk + buffer == TextOf(s.log) && TextOf(s.log[..s.flushed]) <= disk
  }

  /** The engine's commits and its last flush, played to a new file. */
  method Replay(w: StationWriter, s: State)
    requires w.Valid() && w.Contents() == "" && Fits(s.log) && s.flushed <= |s.log|
    modifies w
    ensures w.Valid() && Saved(s, w.disk, w.buffer)
  {
    AppendAll(w, s.log, 0, s.flushed);
    w.Flush();
    AppendAll(w, s.log, s.flushed, |s.log|);
    assert s.log[..|s.log|] == s.log;
  }

  /** Whenever the engine is blocked, or has returned, the file on disk is its whole log: a reader
      gets every record, in order, with its address. */
  lemma FileReadsBack(s: State, disk: string, buffer: string, fn: TraceRecord -> bool)
    requires Reachable(s) && (s.at.Blocked? || s.at.Returned?) && Saved(s, disk, buffer)
    requires forall a :: 0 <= a < |s.log| ==> fn(RecordOf(s.log[a]))
    ensures disk == TextOf(s.log) && buffer == ""
    ensures var o := StreamFrom(disk, 0, Decode, fn, []);
      && o.end.Finished? && |o.seen| == |s.log|
      && (forall a :: 0 <= a < |s.log| ==> o.seen[a] == RecordOf(s.log[a]) && HexValue(o.seen[a].addr[2..]) == s.log[a].data.addr)
  {
    RestIsFlushed(s);
    AllOnDisk(s, disk, buffer);
    LogReadsBack(s.log, fn);
  }

  lemma RestIsFlushed(s: State)
    requires Reachable(s) && (s.at.Blocked? || s.at.Returned?)
    ensures s.flushed == |s.log|
  {
    AlwaysGood(s);
  }

  lemma NothingBuffered(text: string, disk: string, buffer: string)
    requires disk + buffer == text && text <= disk
    ensures disk == text && buffer == ""
  {
    assert |disk| + |buffer| == |text|;
  }

  lemma AllOnDisk(s: State, disk: string, buffer: string)
    requires Saved(s, disk, buffer) && s.flushed == |s.log|
    ensures disk == TextOf(s.log) && buffer == ""
  {
    assert s.log[..s.flushed] == s.log;
    NothingBuffered(TextOf(s.log), disk, buffer);
  }
}
