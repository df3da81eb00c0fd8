/** A reader for flat JSON objects of unsigned integers, plain strings and
    booleans, into the fields of a trace record. */
module Json {
  import opened Numerals
  import opened Jsonl
  import opened Parsing

  datatype Value = Number(n: nat) | Text(s: string) | Truth(b: bool)

  predicate Blank(c: char) {
    c == ' ' || c == '\t' || c == '\n' || c == '\r'
  }

  function SkipBlanks(s: string): (r: string)
    ensures |r| <= |s|
  {
    if s != "" && Blank(s[0]) then SkipBlanks(s[1..]) else s
  }

  predicate Plain(c: char) {
    c >= ' ' && c != '\"' && c != '\\'
  }

  /** The characters up to the closing quote. */
  function ReadChars(s: string): (r: Option<Parsed<string>>)
    ensures r.Some? ==> |r.value.rest| < |s|
  {
    if s == "" then None
    else if s[0] == '\"' then Some(Parsed("", s[1..]))
    else if !Plain(s[0]) then None
    else
      match ReadChars(s[1..])
      case None => None
      case Some(p) => Some(Parsed([s[0]] + p.item, p.rest))
  }

  function ReadString(s: string): (r: Option<Parsed<string>>)
    ensures r.Some? ==> |r.value.rest| < |s|
  {
    if s == "" || s[0] != '\"' then None else ReadChars(s[1..])
  }

  /** How many digits the text starts with. */
  function DigitSpan(s: string): (n: nat)
    ensures n <= |s| && AllDigits(s[..n])
  {
    if s == "" || !IsDigit(s[0]) then 0 else 1 + DigitSpan(s[1..])
  }

  /** An unsigned integer without leading zeros (section 6 of RFC 8259). */
  function ReadNumber(s: string): (r: Option<Parsed<nat>>)
    ensures r.Some? ==> |r.value.rest| < |s|
  {
    var n := DigitSpan(s);
    if n == 0 || (n > 1 && s[0] == '0') then None
    else Some(Parsed(DecimalValue(s[..n]), s[n..]))
  }

  function ReadValue(s: string): (r: Option<Parsed<Value>>)
    ensures r.Some? ==> |r.value.rest| < |s|
  {
    if "true" <= s then Some(Parsed(Truth(true), s[4..]))
    else if "false" <= s then Some(Parsed(Truth(false), s[5..]))
    else if s != "" && s[0] == '\"' then
      match ReadString(s)
      case None => None
      case Some(p) => Some(Parsed(Text(p.item), p.rest))
    else
      match ReadNumber(s)
      case None => None
      case Some(p) => Some(Parsed(Number(p.item), p.rest))
  }

  const MAX_WORD: nat := 0xffff_ffff_ffff_ffff

  /** Store a member in its field: unknown keys are ignored, wrong types and overflow refused. */
  function Assign(r: TraceRecord, key: string, v: Value): (u: Option<TraceRecord>) {
    if key == "probe_id" then if v.Number? && v.n <= MAX_WORD then Some(r.(probeId := v.n)) else None
    else if key == "tid" then if v.Number? && v.n <= MAX_WORD then Some(r.(tid := v.n)) else None
    else if key == "addr" then if v.Text? then Some(r.(addr := v.s)) else None
    else if key == "seq" then if v.Number? && v.n <= MAX_WORD then Some(r.(seqNo := v.n)) else None
    else if key == "is_active" then if v.Truth? then Some(r.(active := v.b)) else None
    else if key == "ts" then if v.Number? && v.n <= MAX_WORD then Some(r.(ts := v.n)) else None
    else Some(r)
  }

  /** One `"key": value` and the text after it. */
  function ReadMember(r: TraceRecord, s: string): (u: Option<Parsed<TraceRecord>>)
    ensures u.Some? ==> |u.value.rest| < |s|
  {
    match ReadString(s)
    case None => None
    case Some(k) =>
      var t := SkipBlanks(k.rest);
      if t == "" || t[0] != ':' then None
      else
        match ReadValue(SkipBlanks(t[1..]))
        case None => None
        case Some(v) =>
          match Assign(r, k.item, v.item)
          case None => None
          case Some(u) => Some(Parsed(u, SkipBlanks(v.rest)))
  }

  /** The members up to the closing brace, which must end the text. */
  function ReadMembers(r: TraceRecord, s: string): (u: Option<TraceRecord>)
    decreases |s|
  {
    match ReadMember(r, s)
    case None => None
    case Some(m) =>
      if m.rest == "" then None
      else if m.rest[0] == ',' then ReadMembers(m.item, SkipBlanks(m.rest[1..]))
      else if m.rest[0] == '}' && SkipBlanks(m.rest[1..]) == "" then Some(m.item)
      else None
  }

  const EMPTY := TraceRecord(0, 0, "", 0, false, 0)

  /** Decode one object. */
  function Decode(s: string): (u: Option<TraceRecord>) {
    var t := SkipBlanks(s);
    if t == "" || t[0] != '{' then None
    else
      var m := SkipBlanks(t[1..]);
      if m != "" && m[0] == '}' then (if SkipBlanks(m[1..]) == "" then Some(EMPTY) else None)
      else ReadMembers(EMPTY, m)
  }

  // ---- Decoding what was printed ----

  ghost predicate AllPlain(s: string) {
    forall i :: 0 <= i < |s| ==> Plain(s[i])
  }

  lemma {:induction false} ReadCharsBack(k: string, rest: string)
    requires AllPlain(k)
    ensures ReadChars(k + "\"" + rest) == Some(Parsed(k, rest))
    decreases |k|
  {
    var s := k + "\"" + rest;
    if k == "" {
      assert s[1..] == rest;
    } else {
      ReadCharsBack(k[1..], rest);
      assert s[1..] == k[1..] + "\"" + rest;
      assert k == [k[0]] + k[1..];
    }
  }

  lemma ReadStringBack(k: string, rest: string)
    requires AllPlain(k)
    ensures ReadString(Quoted(k) + rest) == Some(Parsed(k, rest))
  {
    ReadCharsBack(k, rest);
    assert (Quoted(k) + rest)[1..] == k + "\"" + rest;
  }

  lemma {:induction false} DigitSpanBack(d: string, rest: string)
    requires AllDigits(d) && (rest == "" || !IsDigit(rest[0]))
    ensures DigitSpan(d + rest) == |d|
    decreases |d|
  {
    if d == "" {
      assert d + rest == rest;
    } else {
      DigitSpanBack(d[1..], rest);
      assert (d + rest)[1..] == d[1..] + rest;
    }
  }

  lemma ReadNumberBack(n: nat, rest: string)
    requires rest == "" || !IsDigit(rest[0])
    ensures ReadNumber(Decimal(n) + rest) == Some(Parsed(n, rest))
  {
    var d := Decimal(n);
    DigitSpanBack(d, rest);
    DecimalRoundTrip(n);
    assert (d + rest)[..|d|] == d && (d + rest)[|d|..] == rest;
  }

  /** The printed form of a value. */
  function Print(v: Value): (s: string) {
    match v
    case Number(n) => Decimal(n)
    case Text(t) => Quoted(t)
    case Truth(b) => BoolText(b)
  }

  predicate Stops(rest: string) {
    rest != "" && (rest[0] == ',' || rest[0] == '}')
  }

  lemma ReadValueBack(v: Value, rest: string)
    requires Stops(rest) && (v.Text? ==> AllPlain(v.s))
    ensures ReadValue(Print(v) + rest) == Some(Parsed(v, rest))
    ensures SkipBlanks(Print(v) + rest) == Print(v) + rest
  {
    var s := Print(v) + rest;
    match v {
      case Number(n) =>
        ReadNumberBack(n, rest);
        assert IsDigit(s[0]);
      case Text(t) =>
        ReadStringBack(t, rest);
        assert s[0] == '\"';
      case Truth(b) =>
        if b {
          assert s[..4] == "true" && s[4..] == rest;
        } else {
          assert s[0] == 'f' && s[..5] == "false" && s[5..] == rest;
        }
    }
  }

  /** A quoted key, a colon and a text that reads as `v`. */
  lemma ReadMemberText(r: TraceRecord, key: string, text: string, v: Value, u: TraceRecord, rest: string)
    requires AllPlain(key) && Stops(rest) && Assign(r, key, v) == Some(u)
    requires ReadValue(text + rest) == Some(Parsed(v, rest)) && SkipBlanks(text + rest) == text + rest
    ensures ReadMember(r, Quoted(key) + (":" + (text + rest))) == Some(Parsed(u, rest))
  {
    var tail := ":" + (text + rest);
    ReadStringBack(key, tail);
    assert tail[0] == ':' && tail[1..] == text + rest;
    assert SkipBlanks(tail) == tail && SkipBlanks(rest) == rest;
  }

  lemma MemberText(key: string, text: string, rest: string)
    ensures Member(key, text) + rest == Quoted(key) + (":" + (text + rest))
    ensures SkipBlanks(Member(key, text) + rest) == Member(key, text) + rest
  {
    assert (Member(key, text) + rest)[0] == '\"';
  }

  lemma ReadMemberBack(r: TraceRecord, key: string, v: Value, u: TraceRecord, rest: string)
    requires AllPlain(key) && Stops(rest) && (v.Text? ==> AllPlain(v.s)) && Assign(r, key, v) == Some(u)
    ensures ReadMember(r, Member(key, Print(v)) + rest) == Some(Parsed(u, rest))
    ensures SkipBlanks(Member(key, Print(v)) + rest) == Member(key, Print(v)) + rest
  {
    ReadValueBack(v, rest);
    ReadMemberText(r, key, Print(v), v, u, rest);
    MemberText(key, Print(v), rest);
  }

  /** A printed member and a comma are read, and the reader goes on with the rest. */
  lemma ReadMore(r: TraceRecord, key: string, v: Value, u: TraceRecord, more: string)
    requires AllPlain(key) && (v.Text? ==> AllPlain(v.s)) && Assign(r, key, v) == Some(u) && SkipBlanks(more) == more
    ensures ReadMembers(r, Member(key, Print(v)) + "," + more) == ReadMembers(u, more)
    ensures var s := Member(key, Print(v)) + "," + more; SkipBlanks(s) == s
  {
    assert Member(key, Print(v)) + "," + more == Member(key, Print(v)) + ("," + more);
    ReadMemberBack(r, key, v, u, "," + more);
    assert ("," + more)[1..] == more;
  }

  /** The keys and values of a record, in order. */
  function KeyOf(n: nat): (k: string)
    requires n < 6
    ensures AllPlain(k)
  {
    ["probe_id", "tid", "addr", "seq", "is_active", "ts"][n]
  }

  function ValueOf(r: TraceRecord, n: nat): (v: Value)
    requires n < 6
  {
    match n
    case 0 => Number(r.probeId)
    case 1 => Number(r.tid)
    case 2 => Text(r.addr)
    case 3 => Number(r.seqNo)
    case 4 => Truth(r.active)
    case 5 => Number(r.ts)
  }

  lemma FieldPrints(r: TraceRecord, n: nat)
    requires n < 6
    ensures Fields(r)[n] == Member(KeyOf(n), Print(ValueOf(r, n)))
  {
  }

  /** The record after its first `n` members have been stored. */
  function Stored(r: TraceRecord, n: nat): (u: TraceRecord)
    requires n <= 6
  {
    TraceRecord(if n > 0 then r.probeId else 0, if n > 1 then r.tid else 0, if n > 2 then r.addr else "",
                if n > 3 then r.seqNo else 0, n > 4 && r.active, if n > 5 then r.ts else 0)
  }

  lemma StoreNext(r: TraceRecord, n: nat)
    requires n < 6
    ensures Assign(Stored(r, n), KeyOf(n), ValueOf(r, n)) == Some(Stored(r, n + 1))
  {
  }

  lemma ReadLast(r: TraceRecord)
    requires AllPlain(r.addr)
    ensures var s := Members(Fields(r)[5..]) + "}"; ReadMembers(Stored(r, 5), s) == Some(r) && SkipBlanks(s) == s
  {
    FieldPrints(r, 5);
    StoreNext(r, 5);
    assert Members(Fields(r)[5..]) == Fields(r)[5];
    ReadMemberBack(Stored(r, 5), KeyOf(5), ValueOf(r, 5), r, "}");
    assert "}"[1..] == "";
  }

  /** Reading the members from the `n`-th on completes the record. */
  lemma {:induction false} ReadFrom(r: TraceRecord, n: nat)
    requires n < 6 && AllPlain(r.addr)
    ensures var s := Members(Fields(r)[n..]) + "}"; ReadMembers(Stored(r, n), s) == Some(r) && SkipBlanks(s) == s
    decreases 6 - n
  {
    if n == 5 {
      ReadLast(r);
    } else {
      var more := Members(Fields(r)[n + 1..]) + "}";
      ReadFrom(r, n + 1);
      FieldPrints(r, n);
      StoreNext(r, n);
      MembersFrom(r, n);
      assert Members(Fields(r)[n..]) + "}" == Fields(r)[n] + "," + more;
      ReadMore(Stored(r, n), KeyOf(n), ValueOf(r, n), Stored(r, n + 1), more);
    }
  }

  /** An object whose members read well. */
  lemma DecodeBody(body: string, r: TraceRecord)
    requires body != "" && body[0] == '\"' && ReadMembers(EMPTY, body) == Some(r)
    ensures Decode("{" + body) == Some(r)
  {
    var s := "{" + body;
    assert s[0] == '{' && s[1..] == body;
    assert SkipBlanks(s) == s && SkipBlanks(body) == body;
  }

  /** Every printed object decodes to its record. */
  lemma DecodeObject(r: TraceRecord)
    requires AllPlain(r.addr)
    ensures Decode(Object(r)) == Some(r)
  {
    var ms := Members(Fields(r));
    assert Fields(r)[0..] == Fields(r);
    ReadFrom(r, 0);
    FirstIsQuote(r);
    assert Stored(r, 0) == EMPTY;
    DecodeBody(ms + "}", r);
    assert Object(r) == "{" + (ms + "}");
  }

  lemma FirstIsQuote(r: TraceRecord)
    ensures Members(Fields(r)) != "" && Members(Fields(r))[0] == '\"'
  {
    assert Fields(r)[0..] == Fields(r);
    MembersFrom(r, 0);
    assert Fields(r)[0][0] == '\"';
  }
}
