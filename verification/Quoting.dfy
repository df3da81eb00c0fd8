/** SQL quoting of exported strings and identifiers, against readers of the
    quoted forms. */
module Quoting {
  import opened Parsing

  /** `strings.ReplaceAll` of one character. */
  function ReplaceAll(s: string, c: char, to: string): (r: string) {
    if s == "" then "" else (if s[0] == c then to else [s[0]]) + ReplaceAll(s[1..], c, to)
  }

  function EscapeSQLiteString(v: string): (r: string) {
    ReplaceAll(v, '\'', "''")
  }

  function EscapePostgresString(v: string): (r: string) {
    ReplaceAll(v, '\'', "''")
  }

  function EscapeMySQLString(v: string): (r: string) {
    ReplaceAll(ReplaceAll(v, '\\', "\\\\"), '\'', "''")
  }

  function QuoteMySQLIdentifier(v: string): (r: string) {
    "`" + ReplaceAll(v, '`', "``") + "`"
  }

  function QuotePostgresIdentifier(v: string): (r: string) {
    "\"" + ReplaceAll(v, '\"', "\"\"") + "\""
  }

  // ---- Readers ----

  /** The text after an opening quote `q`, up to a `q` that is not doubled, and what follows. */
  function ReadDoubled(s: string, q: char): (r: Option<Parsed<string>>) {
    if s == "" then None
    else if s[0] != q then Prepend([s[0]], ReadDoubled(s[1..], q))
    else if |s| > 1 && s[1] == q then Prepend([q], ReadDoubled(s[2..], q))
    else Some(Parsed("", s[1..]))
  }

  function Prepend(text: string, r: Option<Parsed<string>>): (u: Option<Parsed<string>>) {
    match r
    case None => None
    case Some(p) => Some(Parsed(text + p.item, p.rest))
  }

  /** A MySQL string literal after its opening quote: doubled quotes and backslash escapes. */
  function ReadMySQL(s: string): (r: Option<Parsed<string>>) {
    if s == "" then None
    else if s[0] == '\\' then (if |s| == 1 then None else Prepend(Unescape(s[1]), ReadMySQL(s[2..])))
    else if s[0] != '\'' then Prepend([s[0]], ReadMySQL(s[1..]))
    else if |s| > 1 && s[1] == '\'' then Prepend("'", ReadMySQL(s[2..]))
    else Some(Parsed("", s[1..]))
  }

  /** What a backslash and `c` stand for; pattern characters keep their backslash. */
  function Unescape(c: char): (r: string) {
    match c
    case '0' => "\0"
    case 'b' => "\U{0008}"
    case 'n' => "\n"
    case 'r' => "\r"
    case 't' => "\t"
    case 'Z' => "\U{001A}"
    case '%' => "\\%"
    case '_' => "\\_"
    case _ => [c]
  }

  // ---- Round trips ----

  /** The quoted text is read back whole, and the reader stops at the closing quote. */
  lemma {:induction false} DoubledReadsBack(v: string, q: char, rest: string)
    requires rest == "" || rest[0] != q
    ensures ReadDoubled(ReplaceAll(v, q, [q, q]) + [q] + rest, q) == Some(Parsed(v, rest))
    decreases |v|
  {
    var s := ReplaceAll(v, q, [q, q]) + [q] + rest;
    if v == "" {
      assert s == [q] + rest && s[1..] == rest;
    } else {
      var t := ReplaceAll(v[1..], q, [q, q]) + [q] + rest;
      DoubledReadsBack(v[1..], q, rest);
      assert v == [v[0]] + v[1..];
      if v[0] == q {
        assert s == [q, q] + t && s[2..] == t;
      } else {
        assert s == [v[0]] + t && s[1..] == t;
      }
    }
  }

  /** SQLite and Postgres literals: quoting any string and reading it gives the string back and
      leaves exactly what followed. */
  lemma LiteralRoundTrip(v: string, rest: string)
    requires rest == "" || rest[0] != '\''
    ensures ReadDoubled(EscapeSQLiteString(v) + "'" + rest, '\'') == Some(Parsed(v, rest))
    ensures ReadDoubled(EscapePostgresString(v) + "'" + rest, '\'') == Some(Parsed(v, rest))
  {
    assert "''" == ['\'', '\''] && "'" == ['\''];
    DoubledReadsBack(v, '\'', rest);
  }

  lemma MySQLIdentifierRoundTrip(v: string, rest: string)
    requires rest == "" || rest[0] != '`'
    ensures var s := QuoteMySQLIdentifier(v) + rest; s[0] == '`' && ReadDoubled(s[1..], '`') == Some(Parsed(v, rest))
  {
    assert "``" == ['`', '`'];
    DoubledReadsBack(v, '`', rest);
    assert (QuoteMySQLIdentifier(v) + rest)[1..] == ReplaceAll(v, '`', "``") + ['`'] + rest;
  }

  lemma PostgresIdentifierRoundTrip(v: string, rest: string)
    requires rest == "" || rest[0] != '\"'
    ensures var s := QuotePostgresIdentifier(v) + rest; s[0] == '\"' && ReadDoubled(s[1..], '\"') == Some(Parsed(v, rest))
  {
    assert "\"\"" == ['\"', '\"'];
    DoubledReadsBack(v, '\"', rest);
    assert (QuotePostgresIdentifier(v) + rest)[1..] == ReplaceAll(v, '\"', "\"\"") + ['\"'] + rest;
  }

  /** Both of MySQL's special characters doubled, character by character. */
  function DoubleOne(c: char): (r: string) {
    if c == '\\' || c == '\'' then [c, c] else [c]
  }

  function DoubleBoth(v: string): (r: string) {
    if v == "" then "" else DoubleOne(v[0]) + DoubleBoth(v[1..])
  }

  lemma {:induction false} ReplaceConcat(s: string, t: string, c: char, to: string)
    ensures ReplaceAll(s + t, c, to) == ReplaceAll(s, c, to) + ReplaceAll(t, c, to)
    decreases |s|
  {
    if s == "" {
      assert s + t == t;
    } else {
      ReplaceConcat(s[1..], t, c, to);
      assert (s + t)[1..] == s[1..] + t;
    }
  }

  /** The two passes of `escapeMySQLString` amount to one. */
  lemma {:induction false} MySQLIsOnePass(v: string)
    ensures EscapeMySQLString(v) == DoubleBoth(v)
    decreases |v|
  {
    if v != "" {
      MySQLIsOnePass(v[1..]);
      var head := if v[0] == '\\' then "\\\\" else [v[0]];
      ReplaceConcat(head, ReplaceAll(v[1..], '\\', "\\\\"), '\'', "''");
      assert ReplaceAll(head, '\'', "''") == (if v[0] == '\'' then "''" else head) by {
        if v[0] == '\\' {
          assert head[1..] == "\\" && "\\"[1..] == "";
          assert ReplaceAll("\\", '\'', "''") == "\\";
        } else {
          assert head[1..] == "";
        }
      }
    }
  }

  /** The reader undoes the doubling of one character. */
  lemma ReadOne(c: char, t: string)
    ensures ReadMySQL(DoubleOne(c) + t) == Prepend([c], ReadMySQL(t))
  {
    var s := DoubleOne(c) + t;
    if c == '\\' || c == '\'' {
      assert s[0] == c && s[1] == c && s[2..] == t;
    } else {
      assert s[0] == c && s[1..] == t;
    }
  }

  lemma {:induction false} DoubleBothReadsBack(v: string, rest: string)
    requires rest == "" || rest[0] != '\''
    ensures ReadMySQL(DoubleBoth(v) + "'" + rest) == Some(Parsed(v, rest))
    decreases |v|
  {
    var s := DoubleBoth(v) + "'" + rest;
    if v == "" {
      assert s == "'" + rest && s[1..] == rest;
    } else {
      var t := DoubleBoth(v[1..]) + "'" + rest;
      DoubleBothReadsBack(v[1..], rest);
      assert v == [v[0]] + v[1..];
      ReadOne(v[0], t);
      assert s == DoubleOne(v[0]) + t;
    }
  }

  /** A MySQL literal of any string reads back as that string. */
  lemma MySQLStringRoundTrip(v: string, rest: string)
    requires rest == "" || rest[0] != '\''
    ensures ReadMySQL(EscapeMySQLString(v) + "'" + rest) == Some(Parsed(v, rest))
  {
    MySQLIsOnePass(v);
    DoubleBothReadsBack(v, rest);
  }
}
