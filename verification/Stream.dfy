/** Reading the log back: `StreamJSONL` over the text of a whole file, and the
    round trip from the engine's log through the file to its readers. */
module Stream {
  import opened Machine
  import opened Numerals
  import opened Jsonl
  import opened Json
  import opened Parsing

  /** The scanner gives up on a line that does not fit its 1 MiB buffer. */
  const LIMIT: nat := 1024 * 1024

  /** Where the first line ends: at a newline or at the end of the text. */
  function LineEnd(s: string): (n: nat)
    ensures n <= |s| && (n < |s| ==> s[n] == '\n')
    ensures forall i :: 0 <= i < n ==> s[i] != '\n'
  {
    if s == "" || s[0] == '\n' then 0 else 1 + LineEnd(s[1..])
  }

  function AfterLine(s: string): (r: string)
    requires s != ""
    ensures |r| < |s|
  {
    var n := LineEnd(s);
    if n < |s| then s[n + 1..] else ""
  }

  /** The scanner drops one carriage return before the newline. */
  function DropReturn(s: string): (r: string) {
    if s != "" && s[|s| - 1] == '\r' then s[..|s| - 1] else s
  }

  predicate Space(c: char) {
    c == ' ' || c == '\t' || c == '\n' || c == '\r' || c == '\U{000B}' || c == '\U{000C}'
  }

  function TrimLeft(s: string): (r: string)
    ensures |r| <= |s|
  {
    if s != "" && Space(s[0]) then TrimLeft(s[1..]) else s
  }

  function TrimRight(s: string): (r: string)
    ensures |r| <= |s|
  {
    if s != "" && Space(s[|s| - 1]) then TrimRight(s[..|s| - 1]) else s
  }

  function Trim(s: string): (r: string) {
    TrimRight(TrimLeft(s))
  }

  lemma {:induction false} TrimLeftIs(s: string)
    ensures var r := TrimLeft(s); s[|s| - |r|..] == r && (r == "" || !Space(r[0])) && forall i :: 0 <= i < |s| - |r| ==> Space(s[i])
    decreases |s|
  {
    if s != "" && Space(s[0]) {
      TrimLeftIs(s[1..]);
      var r := TrimLeft(s);
      assert s[1..][|s| - 1 - |r|..] == s[|s| - |r|..];
      forall i | 0 <= i < |s| - |r| ensures Space(s[i]) { if i > 0 { assert s[i] == s[1..][i - 1]; } }
    }
  }

  lemma {:induction false} TrimRightIs(s: string)
    ensures var r := TrimRight(s); r <= s && (r == "" || !Space(r[|r| - 1])) && forall i :: |r| <= i < |s| ==> Space(s[i])
    decreases |s|
  {
    if s != "" && Space(s[|s| - 1]) {
      TrimRightIs(s[..|s| - 1]);
      forall i | |TrimRight(s)| <= i < |s| ensures Space(s[i]) { if i < |s| - 1 { assert s[i] == s[..|s| - 1][i]; } }
    }
  }

  /** Trimming takes white space off both ends and nothing else, and leaves none there. */
  lemma TrimIs(s: string) returns (left: string, right: string)
    ensures s == left + Trim(s) + right
    ensures (forall i :: 0 <= i < |left| ==> Space(left[i])) && (forall i :: 0 <= i < |right| ==> Space(right[i]))
    ensures Trim(s) != "" ==> !Space(Trim(s)[0]) && !Space(Trim(s)[|Trim(s)| - 1])
  {
    var t := TrimLeft(s);
    TrimLeftIs(s);
    TrimRightIs(t);
    left, right := s[..|s| - |t|], t[|Trim(s)|..];
    assert t == Trim(s) + right && s == left + t;
  }

  /** How a stream ends; errors carry the number of the line at fault. */
  datatype End = Finished | BadLine(line: nat) | Refused(line: nat) | TooLong

  /** `seen` are the records handed to the callback, in order. */
  datatype Outcome = Outcome(end: End, seen: seq<TraceRecord>)

  type Decoder = string -> Option<TraceRecord>

  /** The first line as the reader sees it. */
  function LineOf(s: string): (line: string) {
    Trim(DropReturn(s[..LineEnd(s)]))
  }

  /** What the first line of a text does to the stream, as line `n`: how it ends it, or `Finished`
      if it reads well, and the record it hands to the callback, if any. */
  function FirstLine(s: string, n: nat, decode: Decoder, fn: TraceRecord -> bool): (o: Outcome) {
    if LineEnd(s) >= LIMIT then Outcome(TooLong, [])
    else if LineOf(s) == "" then Outcome(Finished, [])
    else
      match decode(LineOf(s))
      case None => Outcome(BadLine(n), [])
      case Some(r) => Outcome(if fn(r) then Finished else Refused(n), [r])
  }

  /** The rest of the stream, after `n` lines that delivered `seen`. */
  function StreamFrom(s: string, n: nat, decode: Decoder, fn: TraceRecord -> bool, seen: seq<TraceRecord>): (o: Outcome)
    ensures seen <= o.seen
    decreases |s|
  {
    if s == "" then Outcome(Finished, seen)
    else
      var f := FirstLine(s, n + 1, decode, fn);
      if f.end.Finished? then StreamFrom(AfterLine(s), n + 1, decode, fn, seen + f.seen) else Outcome(f.end, seen + f.seen)
  }

  /** `StreamJSONL` over the text of the file; `fn` answers whether it took the record. */
  method StreamJSONL(text: string, decode: Decoder, fn: TraceRecord -> bool) returns (o: Outcome)
    ensures o == StreamFrom(text, 0, decode, fn, [])
  {
    var s, lineNo, seen := text, 0, [];
    while s != ""
      invariant StreamFrom(text, 0, decode, fn, []) == StreamFrom(s, lineNo, decode, fn, seen)
      decreases |s|
    {
      assert seen + [] == seen;
      var n := LineEnd(s);
      if n >= LIMIT { return Outcome(TooLong, seen); }
      lineNo := lineNo + 1;
      var line := Trim(DropReturn(s[..n]));
      s := AfterLine(s);
      if line != "" {
        var record := decode(line);
        if record.None? { return Outcome(BadLine(lineNo), seen); }
        seen := seen + [record.value];
        if !fn(record.value) { return Outcome(Refused(lineNo), seen); }
      }
    }
    o := Outcome(Finished, seen);
  }

  // ---- Round trip ----

  ghost predicate Unbroken(s: string) {
    forall i :: 0 <= i < |s| ==> s[i] != '\n'
  }

  lemma {:induction false} LineEndBack(s: string, rest: string)
    requires Unbroken(s)
    ensures LineEnd(s + "\n" + rest) == |s| && AfterLine(s + "\n" + rest) == rest
    decreases |s|
  {
    var t := s + "\n" + rest;
    if s != "" {
      LineEndBack(s[1..], rest);
      assert t[1..] == s[1..] + "\n" + rest;
    }
    assert LineEnd(t) == |s| ==> t[|s| + 1..] == rest;
  }

  lemma FieldUnbroken(r: TraceRecord, n: nat)
    requires n < 6 && AllPlain(r.addr)
    ensures Unbroken(Fields(r)[n])
  {
    FieldPrints(r, n);
    var k, v := KeyOf(n), Print(ValueOf(r, n));
    assert Unbroken(k) && Unbroken(v);
    assert Unbroken(Quoted(k));
  }

  lemma {:induction false} MembersUnbroken(r: TraceRecord, n: nat)
    requires n < 6 && AllPlain(r.addr)
    ensures Unbroken(Members(Fields(r)[n..]))
    decreases 6 - n
  {
    FieldUnbroken(r, n);
    if n < 5 {
      MembersUnbroken(r, n + 1);
      MembersFrom(r, n);
    } else {
      assert Members(Fields(r)[5..]) == Fields(r)[5];
    }
  }

  lemma ObjectUnbroken(r: TraceRecord)
    requires AllPlain(r.addr)
    ensures Unbroken(Object(r)) && Trim(DropReturn(Object(r))) == Object(r) && Object(r) != ""
  {
    MembersUnbroken(r, 0);
    assert Fields(r)[0..] == Fields(r);
    var s := Object(r);
    assert s[0] == '{' && s[|s| - 1] == '}';
  }

  /** A file is lines of records with lines of white space in between. */
  datatype Item = Record(r: TraceRecord) | Gap(blanks: string)

  ghost predicate Readable(it: Item) {
    match it
    case Record(r) => AllPlain(r.addr) && |Object(r)| < LIMIT
    case Gap(blanks) => |blanks| < LIMIT && forall i :: 0 <= i < |blanks| ==> Space(blanks[i]) && blanks[i] != '\n'
  }

  function ItemText(it: Item): (s: string) {
    match it
    case Record(r) => Line(r)
    case Gap(blanks) => blanks + "\n"
  }

  function FileText(items: seq<Item>): (s: string) {
    if items == [] then "" else ItemText(items[0]) + FileText(items[1..])
  }

  function Delivers(it: Item): (rs: seq<TraceRecord>) {
    if it.Record? then [it.r] else []
  }

  function RecordsOf(items: seq<Item>): (rs: seq<TraceRecord>) {
    if items == [] then [] else Delivers(items[0]) + RecordsOf(items[1..])
  }

  lemma {:induction false} TrimLeftBlank(s: string)
    requires forall i :: 0 <= i < |s| ==> Space(s[i])
    ensures TrimLeft(s) == ""
    decreases |s|
  {
    if s != "" { TrimLeftBlank(s[1..]); }
  }

  /** A line of text and the records it delivers: one, or none if it is blank. */
  datatype RawLine = RawLine(text: string, records: seq<TraceRecord>)

  ghost predicate Reads(l: RawLine, decode: Decoder, fn: TraceRecord -> bool) {
    var line := Trim(DropReturn(l.text));
    && Unbroken(l.text) && |l.text| < LIMIT
    && (if line == "" then l.records == []
        else |l.records| == 1 && decode(line) == Some(l.records[0]) && fn(l.records[0]))
  }

  /** Lines of text, then a rest. */
  function RawText(ls: seq<RawLine>, rest: string): (s: string) {
    if ls == [] then rest else ls[0].text + "\n" + RawText(ls[1..], rest)
  }

  function RawRecords(ls: seq<RawLine>): (rs: seq<TraceRecord>) {
    if ls == [] then [] else ls[0].records + RawRecords(ls[1..])
  }

  /** The stream of `s` comes out as `o`. (Quantified so that the stream is unfolded only where a
      proof names it.) */
  ghost predicate Yields(s: string, n: nat, decode: Decoder, fn: TraceRecord -> bool, seen: seq<TraceRecord>, o: Outcome) {
    forall t {:trigger StreamFrom(t, n, decode, fn, seen)} :: t == s ==> StreamFrom(t, n, decode, fn, seen) == o
  }

  lemma YieldsIs(s: string, n: nat, decode: Decoder, fn: TraceRecord -> bool, seen: seq<TraceRecord>, o: Outcome)
    ensures Yields(s, n, decode, fn, seen, o) <==> StreamFrom(s, n, decode, fn, seen) == o
  {
  }

  lemma LineStep(l: RawLine, rest: string, n: nat, decode: Decoder, fn: TraceRecord -> bool, seen: seq<TraceRecord>, o: Outcome)
    requires Reads(l, decode, fn) && Yields(rest, n + 1, decode, fn, seen + l.records, o)
    ensures Yields(l.text + "\n" + rest, n, decode, fn, seen, o)
  {
    var s := l.text + "\n" + rest;
    LineEndBack(l.text, rest);
    assert s[..|l.text|] == l.text;
    assert FirstLine(s, n + 1, decode, fn) == Outcome(Finished, l.records);
  }

  lemma Assoc(a: seq<TraceRecord>, b: seq<TraceRecord>, c: seq<TraceRecord>)
    ensures a + b + c == a + (b + c)
  {
  }

  lemma RawCons(l: RawLine, ls: seq<RawLine>, rest: string)
    ensures RawText([l] + ls, rest) == l.text + "\n" + RawText(ls, rest)
    ensures RawRecords([l] + ls) == l.records + RawRecords(ls)
  {
    assert ([l] + ls)[1..] == ls;
  }

  /** Lines that read well are read, one by one, and the stream goes on behind them. */
  lemma {:induction false} StreamLines(ls: seq<RawLine>, rest: string, n: nat, decode: Decoder, fn: TraceRecord -> bool, seen: seq<TraceRecord>, o: Outcome)
    requires forall a :: 0 <= a < |ls| ==> Reads(ls[a], decode, fn)
    requires Yields(rest, n + |ls|, decode, fn, seen + RawRecords(ls), o)
    ensures Yields(RawText(ls, rest), n, decode, fn, seen, o)
    decreases |ls|
  {
    if ls == [] {
      assert seen + [] == seen;
    } else {
      var l, tail := ls[0], ls[1..];
      Assoc(seen, l.records, RawRecords(tail));
      StreamLines(tail, rest, n + 1, decode, fn, seen + l.records, o);
      LineStep(l, RawText(tail, rest), n, decode, fn, seen, o);
    }
  }

  lemma FirstLineReads(s: string, n: nat, decode: Decoder, fn: TraceRecord -> bool)
    requires FirstLine(s, n, decode, fn).end.Finished?
    ensures Reads(RawLine(s[..LineEnd(s)], FirstLine(s, n, decode, fn).seen), decode, fn)
  {
  }

  /** The first line is at fault, whatever its number. */
  predicate Faulty(s: string, decode: Decoder, fn: TraceRecord -> bool) {
    !FirstLine(s, 0, decode, fn).end.Finished?
  }

  lemma FaultyAnywhere(s: string, n: nat, decode: Decoder, fn: TraceRecord -> bool)
    ensures Faulty(s, decode, fn) <==> !FirstLine(s, n, decode, fn).end.Finished?
  {
  }

  /** One good line off the front. */
  lemma SplitOne(s: string, decode: Decoder, fn: TraceRecord -> bool) returns (l: RawLine, rest: string)
    requires LineEnd(s) < |s| && !Faulty(s, decode, fn)
    ensures Reads(l, decode, fn) && s == l.text + "\n" + rest && |rest| < |s|
  {
    var e := LineEnd(s);
    FirstLineReads(s, 0, decode, fn);
    l, rest := RawLine(s[..e], FirstLine(s, 0, decode, fn).seen), s[e + 1..];
  }

  /** Any text is lines that read well and a rest: nothing, or a last line without a newline, or a
      text whose first line is at fault. */
  lemma {:induction false} SplitText(s: string, decode: Decoder, fn: TraceRecord -> bool) returns (ls: seq<RawLine>, rest: string)
    ensures s == RawText(ls, rest) && forall a :: 0 <= a < |ls| ==> Reads(ls[a], decode, fn)
    ensures LineEnd(rest) < |rest| ==> Faulty(rest, decode, fn)
    decreases |s|
  {
    if LineEnd(s) == |s| || Faulty(s, decode, fn) {
      ls, rest := [], s;
    } else {
      var l, tail := SplitOne(s, decode, fn);
      ls, rest := SplitText(tail, decode, fn);
      RawCons(l, ls, rest);
      ls := [l] + ls;
    }
  }

  lemma LastStep(s: string, n: nat, decode: Decoder, fn: TraceRecord -> bool, seen: seq<TraceRecord>)
    requires s != "" && (LineEnd(s) < |s| ==> !FirstLine(s, n + 1, decode, fn).end.Finished?)
    ensures var o := FirstLine(s, n + 1, decode, fn); Yields(s, n, decode, fn, seen, Outcome(o.end, seen + o.seen))
  {
    if LineEnd(s) == |s| { assert AfterLine(s) == ""; }
  }

  lemma StopsAt(ls: seq<RawLine>, rest: string, decode: Decoder, fn: TraceRecord -> bool, o: Outcome)
    requires forall a :: 0 <= a < |ls| ==> Reads(ls[a], decode, fn)
    requires Yields(rest, |ls|, decode, fn, RawRecords(ls), o)
    ensures Yields(RawText(ls, rest), 0, decode, fn, [], o)
  {
    assert [] + RawRecords(ls) == RawRecords(ls);
    StreamLines(ls, rest, 0, decode, fn, [], o);
  }

  /** How a stream ends at `rest`, behind `n` lines that delivered `seen`: a first line that does not
      fit the scanner's buffer ends it; one that fits, is not blank and does not decode is reported
      with its number, delivering nothing more; one that decodes and is refused is delivered and
      reported with its number; otherwise `rest` is the last line and is delivered unless blank. */
  ghost predicate EndsAt(rest: string, n: nat, decode: Decoder, fn: TraceRecord -> bool, seen: seq<TraceRecord>, o: Outcome) {
    var line := Trim(DropReturn(rest[..LineEnd(rest)]));
    var fits := LineEnd(rest) < LIMIT;
    && (o.end.TooLong? <==> !fits)
    && (o.end == BadLine(n + 1) <==> fits && line != "" && decode(line).None?)
    && (o.end == Refused(n + 1) <==> fits && line != "" && decode(line).Some? && !fn(decode(line).value))
    && (o.end.Finished? <==> fits && (line == "" || (decode(line).Some? && fn(decode(line).value))))
    && o.seen == seen + (if fits && line != "" && decode(line).Some? then [decode(line).value] else [])
  }

  /** Every outcome explained: the stream delivers the records of the lines that read well, in order.
      At the end of the text it is finished; otherwise it ends at the first line at fault, or at a
      last line without a newline. */
  lemma StreamExplained(s: string, decode: Decoder, fn: TraceRecord -> bool) returns (ls: seq<RawLine>, rest: string, o: Outcome)
    ensures s == RawText(ls, rest) && forall a :: 0 <= a < |ls| ==> Reads(ls[a], decode, fn)
    ensures Yields(s, 0, decode, fn, [], o)
    ensures rest == "" ==> o == Outcome(Finished, RawRecords(ls))
    ensures rest != "" ==> EndsAt(rest, |ls|, decode, fn, RawRecords(ls), o)
    ensures rest != "" && LineEnd(rest) < |rest| ==> !o.end.Finished?
  {
    ls, rest := SplitText(s, decode, fn);
    o := Outcome(Finished, RawRecords(ls));
    if rest != "" {
      FaultyAnywhere(rest, |ls| + 1, decode, fn);
      LastStep(rest, |ls|, decode, fn, RawRecords(ls));
      var f := FirstLine(rest, |ls| + 1, decode, fn);
      o := Outcome(f.end, RawRecords(ls) + f.seen);
      FirstLineEnds(rest, |ls|, decode, fn, RawRecords(ls));
    }
    StopsAt(ls, rest, decode, fn, o);
  }

  lemma FirstLineEnds(rest: string, n: nat, decode: Decoder, fn: TraceRecord -> bool, seen: seq<TraceRecord>)
    ensures var f := FirstLine(rest, n + 1, decode, fn); EndsAt(rest, n, decode, fn, seen, Outcome(f.end, seen + f.seen))
  {
  }

  function Raw(it: Item): (l: RawLine) {
    match it
    case Record(r) => RawLine(Object(r), [r])
    case Gap(blanks) => RawLine(blanks, [])
  }

  lemma RawReads(it: Item, fn: TraceRecord -> bool)
    requires Readable(it) && (it.Record? ==> fn(it.r))
    ensures Reads(Raw(it), Decode, fn)
  {
    match it {
      case Record(r) =>
        ObjectUnbroken(r);
        DecodeObject(r);
      case Gap(blanks) => TrimLeftBlank(DropReturn(blanks));
    }
  }

  function Raws(items: seq<Item>): (ls: seq<RawLine>)
    ensures |ls| == |items| && forall a :: 0 <= a < |items| ==> ls[a] == Raw(items[a])
  {
    seq(|items|, a requires 0 <= a < |items| => Raw(items[a]))
  }

  lemma {:induction false} RawsSpell(items: seq<Item>)
    ensures RawText(Raws(items), "") == FileText(items) && RawRecords(Raws(items)) == RecordsOf(items)
    decreases |items|
  {
    if items != [] {
      RawsSpell(items[1..]);
      assert Raws(items)[1..] == Raws(items[1..]);
    }
  }

  /** Reading a file of printed records, with any blank lines in between, delivers exactly those
      records in order. */
  lemma FileRoundTrip(items: seq<Item>, fn: TraceRecord -> bool)
    requires forall a :: 0 <= a < |items| ==> Readable(items[a]) && (items[a].Record? ==> fn(items[a].r))
    ensures StreamFrom(FileText(items), 0, Decode, fn, []) == Outcome(Finished, RecordsOf(items))
  {
    var ls := Raws(items);
    forall a | 0 <= a < |ls| ensures Reads(ls[a], Decode, fn) { RawReads(items[a], fn); }
    RawsSpell(items);
    assert [] + RecordsOf(items) == RecordsOf(items);
    StreamLines(ls, "", 0, Decode, fn, [], Outcome(Finished, RecordsOf(items)));
    YieldsIs(FileText(items), 0, Decode, fn, [], Outcome(Finished, RecordsOf(items)));
  }

  // ---- From the engine's log to its readers ----

  /** What a log entry becomes in the file. */
  function RecordOf(e: Entry): (r: TraceRecord)
    requires e.seqNo <= MAX_WORD
  {
    TraceRecord(e.probe, e.data.tid, Hex(e.data.addr), e.seqNo, e.data.active, e.data.ts)
  }

  lemma {:induction false} HexDigitsPlain(v: nat, n: nat)
    ensures AllPlain(HexDigits(v, n))
    decreases n
  {
    if n > 0 { HexDigitsPlain(v / 16, n - 1); }
  }

  lemma EntryReadable(e: Entry)
    requires e.seqNo <= MAX_WORD
    ensures Readable(Record(RecordOf(e)))
  {
    HexDigitsPlain(e.data.addr, 16);
    LineLength(RecordOf(e));
  }

  function LogItems(log: seq<Entry>): (items: seq<Item>)
    requires forall a :: 0 <= a < |log| ==> log[a].seqNo <= MAX_WORD
    ensures |items| == |log|
  {
    seq(|log|, a requires 0 <= a < |log| => Record(RecordOf(log[a])))
  }

  lemma {:induction false} AllRecords(items: seq<Item>)
    requires forall a :: 0 <= a < |items| ==> items[a].Record?
    ensures |RecordsOf(items)| == |items| && forall a :: 0 <= a < |items| ==> RecordsOf(items)[a] == items[a].r
    decreases |items|
  {
    if items != [] { AllRecords(items[1..]); }
  }

  /** The file of any log whose sequence numbers fit 64 bits reads back as that log, entry by
      entry, and each address string gives back the address. */
  lemma LogReadsBack(log: seq<Entry>, fn: TraceRecord -> bool)
    requires forall a :: 0 <= a < |log| ==> log[a].seqNo <= MAX_WORD && fn(RecordOf(log[a]))
    ensures var o := StreamFrom(FileText(LogItems(log)), 0, Decode, fn, []);
      && o.end.Finished? && |o.seen| == |log|
      && (forall a :: 0 <= a < |log| ==> o.seen[a] == RecordOf(log[a]) && HexValue(o.seen[a].addr[2..]) == log[a].data.addr)
  {
    var items := LogItems(log);
    forall a | 0 <= a < |items| ensures Readable(items[a]) { EntryReadable(log[a]); }
    FileRoundTrip(items, fn);
    AllRecords(items);
    forall a | 0 <= a < |log| ensures HexValue(Hex(log[a].data.addr)[2..]) == log[a].data.addr { HexInverts(log[a].data.addr); }
  }
}
