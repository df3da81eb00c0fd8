/** The log file: how a record is printed, and how printed lines reach the disk. */
module Jsonl {
  import opened Machine
  import opened Numerals

  datatype TraceRecord = TraceRecord(probeId: Word, tid: Word, addr: string, seqNo: Word, active: bool, ts: Word)

  function Quoted(s: string): (r: string) {
    "\"" + s + "\""
  }

  /** One member of the object. */
  function Member(key: string, value: string): (r: string) {
    Quoted(key) + ":" + value
  }

  function BoolText(b: bool): (r: string) {
    if b then "true" else "false"
  }

  /** Members separated by commas. */
  function Members(ms: seq<string>): (r: string)
    requires |ms| >= 1
  {
    if |ms| == 1 then ms[0] else ms[0] + "," + Members(ms[1..])
  }

  function Fields(r: TraceRecord): (ms: seq<string>) {
    [Member("probe_id", Decimal(r.probeId)), Member("tid", Decimal(r.tid)), Member("addr", Quoted(r.addr)),
     Member("seq", Decimal(r.seqNo)), Member("is_active", BoolText(r.active)), Member("ts", Decimal(r.ts))]
  }

  /** The record as a JSON object (section 4 of RFC 8259), members in the log's order. */
  function Object(r: TraceRecord): (s: string) {
    "{" + Members(Fields(r)) + "}"
  }

  function Line(r: TraceRecord): (s: string) {
    Object(r) + "\n"
  }

  lemma {:induction false} MembersSnoc(ms: seq<string>, m: string)
    requires |ms| >= 1
    ensures Members(ms + [m]) == Members(ms) + "," + m
    decreases |ms|
  {
    assert (ms + [m])[1..] == ms[1..] + [m];
    if |ms| > 1 {
      MembersSnoc(ms[1..], m);
      assert ms[0] + "," + (Members(ms[1..]) + "," + m) == (ms[0] + "," + Members(ms[1..])) + "," + m;
    } else {
      assert ms[1..] + [m] == [m];
    }
  }

  lemma Glue(b: string, o: string, x: string, c: string, k: string, v: string)
    ensures b + (o + x) + (c + k) + v == b + (o + (x + c + (k + v)))
  {
  }

  /** Appending a comma, a key and a value appends a member. */
  lemma AppendMember(buf: string, ms: seq<string>, key: string, value: string)
    requires |ms| >= 1
    ensures buf + ("{" + Members(ms)) + ("," + Quoted(key) + ":") + value == buf + ("{" + Members(ms + [Member(key, value)]))
  {
    MembersSnoc(ms, Member(key, value));
    assert "," + Quoted(key) + ":" == "," + (Quoted(key) + ":");
    Glue(buf, "{", Members(ms), ",", Quoted(key) + ":", value);
  }

  /** The quotes of the address live in the pieces around it. */
  lemma AddressSeam(r: string, addr: string)
    ensures r + ",\"addr\":\"" + addr + "\",\"seq\":" == r + ("," + Quoted("addr") + ":") + Quoted(addr) + ("," + Quoted("seq") + ":")
  {
    assert ",\"addr\":\"" == ("," + Quoted("addr") + ":") + "\"";
    assert "\",\"seq\":" == "\"" + ("," + Quoted("seq") + ":");
  }

  /** `marshalSafeSlotJSONL`: the same text, appended piece by piece to the caller's buffer. */
  method Marshal(buf: string, probeId: Word, safeSeq: Word, tid: Word, addr: Word, isActive: bool, ts: Word)
    returns (r: string)
    ensures r == buf + Line(TraceRecord(probeId, tid, Hex(addr), safeSeq, isActive, ts))
  {
    r := buf + "{\"probe_id\":";
    r := r + Decimal(probeId);
    ghost var ms := [Member("probe_id", Decimal(probeId))];
    assert r == buf + ("{" + Members(ms)) by { assert "{\"probe_id\":" == "{" + (Quoted("probe_id") + ":"); }

    AppendMember(buf, ms, "tid", Decimal(tid));
    assert ",\"tid\":" == "," + Quoted("tid") + ":";
    r := r + ",\"tid\":";
    r := r + Decimal(tid);
    ms := ms + [Member("tid", Decimal(tid))];

    AddressSeam(r, Hex(addr));
    AppendMember(buf, ms, "addr", Quoted(Hex(addr)));
    r := r + ",\"addr\":\"";
    r := AppendHex(r, addr);
    ms := ms + [Member("addr", Quoted(Hex(addr)))];
    AppendMember(buf, ms, "seq", Decimal(safeSeq));
    r := r + "\",\"seq\":";
    r := r + Decimal(safeSeq);
    ms := ms + [Member("seq", Decimal(safeSeq))];

    r := AppendTail(buf, r, ms, isActive, ts);
    assert ms + [Member("is_active", BoolText(isActive)), Member("ts", Decimal(ts))]
        == Fields(TraceRecord(probeId, tid, Hex(addr), safeSeq, isActive, ts));
  }

  method AppendTail(ghost buf: string, r0: string, ghost ms: seq<string>, isActive: bool, ts: Word) returns (r: string)
    requires |ms| >= 1 && r0 == buf + ("{" + Members(ms))
    ensures r == buf + ("{" + Members(ms + [Member("is_active", BoolText(isActive)), Member("ts", Decimal(ts))]) + "}" + "\n")
  {
    r := r0;
    AppendMember(buf, ms, "is_active", BoolText(isActive));
    assert ",\"is_active\":" == "," + Quoted("is_active") + ":";
    r := r + ",\"is_active\":";
    if isActive {
      r := r + "true";
    } else {
      r := r + "false";
    }
    ghost var ms' := ms + [Member("is_active", BoolText(isActive))];
    AppendMember(buf, ms', "ts", Decimal(ts));
    assert ",\"ts\":" == "," + Quoted("ts") + ":";
    r := r + ",\"ts\":";
    r := r + Decimal(ts);
    assert ms' + [Member("ts", Decimal(ts))] == ms + [Member("is_active", BoolText(isActive)), Member("ts", Decimal(ts))];
    r := r + "}\n";
  }

  /** Members of the record from the `n`-th on. */
  lemma MembersFrom(r: TraceRecord, n: nat)
    requires n < 5
    ensures Members(Fields(r)[n..]) == Fields(r)[n] + "," + Members(Fields(r)[n + 1..])
  {
    assert Fields(r)[n..][1..] == Fields(r)[n + 1..];
  }

  /** The members, letter by letter. */
  lemma FieldsSpell(r: TraceRecord)
    ensures Fields(r) == [
      "\"probe_id\":" + Decimal(r.probeId), "\"tid\":" + Decimal(r.tid), "\"addr\":" + ("\"" + r.addr + "\""),
      "\"seq\":" + Decimal(r.seqNo), "\"is_active\":" + (if r.active then "true" else "false"), "\"ts\":" + Decimal(r.ts)]
  {
    assert Quoted("probe_id") + ":" == "\"probe_id\":";
    assert Quoted("tid") + ":" == "\"tid\":";
    assert Quoted("addr") + ":" == "\"addr\":";
    assert Quoted("seq") + ":" == "\"seq\":";
    assert Quoted("is_active") + ":" == "\"is_active\":";
    assert Quoted("ts") + ":" == "\"ts\":";
  }

  /** No line is longer than 160 bytes. */
  lemma LineLength(r: TraceRecord)
    requires |r.addr| == 18
    ensures |Line(r)| <= 160
  {
    WordLength(r.probeId);
    WordLength(r.tid);
    WordLength(r.seqNo);
    WordLength(r.ts);
    assert Fields(r)[0..] == Fields(r);
    MembersFrom(r, 0);
    MembersFrom(r, 1);
    MembersFrom(r, 2);
    MembersFrom(r, 3);
    MembersFrom(r, 4);
    assert Members(Fields(r)[5..]) == Fields(r)[5];
  }

  /** `StationWriter`: a reused line buffer and a buffered, append-only file. */
  class StationWriter {
    const size: nat := 131072
    var disk: string
    var buffer: string
    var line: string

    ghost predicate Valid()
      reads this
    {
      |buffer| <= size
    }

    /** Everything written so far, on disk or not. */
    ghost function Contents(): string
      reads this
    {
      disk + buffer
    }

    constructor (existing: string)
      ensures Valid() && disk == existing && buffer == ""
    {
      disk, buffer, line := existing, "", "";
    }

    /** The buffered write: fill, spill, and keep the rest. */
    method Write(p: string)
      requires Valid()
      modifies `disk, `buffer
      ensures Valid() && Contents() == old(Contents()) + p && old(disk) <= disk
      ensures |p| <= size - |old(buffer)| ==> disk == old(disk)
    {
      var rest := p;
      while |rest| > size - |buffer|
        invariant Valid() && Contents() + rest == old(Contents()) + p && old(disk) <= disk
        invariant |p| <= size - |old(buffer)| ==> disk == old(disk) && |rest| <= size - |buffer|
        decreases |rest|, |buffer|
      {
        if |buffer| == 0 {
          disk := disk + rest;
          rest := "";
        } else {
          var n := size - |buffer|;
          assert rest == rest[..n] + rest[n..];
          disk := disk + (buffer + rest[..n]);
          buffer := "";
          rest := rest[n..];
        }
      }
      buffer := buffer + rest;
    }

    /** One record, one line; the 2048-byte line buffer never has to grow. */
    method WriteSafeSlot(probeId: Word, safeSeq: Word, tid: Word, addr: Word, isActive: bool, ts: Word)
      requires Valid()
      modifies this
      ensures Valid() && old(disk) <= disk && |line| <= 160
      ensures Contents() == old(Contents()) + Line(TraceRecord(probeId, tid, Hex(addr), safeSeq, isActive, ts))
    {
      ghost var r := TraceRecord(probeId, tid, Hex(addr), safeSeq, isActive, ts);
      LineLength(r);
      var text := Marshal("", probeId, safeSeq, tid, addr, isActive, ts);
      ghost var l := Line(r);
      assert text == l && |l| <= 160;
      line := text;
      Write(line);
    }

    method Flush()
      requires Valid()
      modifies `disk, `buffer
      ensures Valid() && disk == old(Contents()) && buffer == ""
    {
      disk := disk + buffer;
      buffer := "";
    }
  }
}
