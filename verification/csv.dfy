/**
 * The CSV codec of the ticket stores: `csvSafe` quotes a field when it has
 * to, a record is its fields joined by commas, and `splitCsv` cuts a line
 * back into fields, honouring quotes and the doubled-quote escape.
 */
module Csv {

  /** A field must be quoted when it holds a comma, a quote or a line feed. */
  predicate NeedsQuoting(s: string)
  {
    ',' in s || '"' in s || '\n' in s
  }

  /** `s.replace(/"/g, '""')`: every quote doubled. */
  function Escape(s: string): (r: string)
    ensures |r| >= |s|
    ensures '\n' in r ==> '\n' in s
  {
    if s == [] then []
    else (if s[0] == '"' then "\"\"" else [s[0]]) + Escape(s[1..])
  }

  /** `csvSafe`: the field itself, or the field quoted with its quotes doubled. */
  function CsvSafe(s: string): (r: string)
    ensures r == s <==> !NeedsQuoting(s)
    ensures '\n' in r ==> '\n' in s
  {
    if NeedsQuoting(s) then "\"" + Escape(s) + "\"" else s
  }

  /** The inverse of `Escape`: a doubled quote read back as one quote. */
  function Unescape(e: string): string
    decreases |e|
  {
    if e == [] then []
    else if |e| >= 2 && e[0] == '"' && e[1] == '"' then "\"" + Unescape(e[2..])
    else [e[0]] + Unescape(e[1..])
  }

  lemma {:induction false} EscapeRoundTrip(s: string)
    ensures Unescape(Escape(s)) == s
    decreases |s|
  {
    if s != [] {
      EscapeRoundTrip(s[1..]);
      var head := if s[0] == '"' then "\"\"" else [s[0]];
      assert Escape(s) == head + Escape(s[1..]);
      if s[0] == '"' {
        assert (head + Escape(s[1..]))[2..] == Escape(s[1..]);
      } else {
        assert (head + Escape(s[1..]))[1..] == Escape(s[1..]);
      }
      assert s == [s[0]] + s[1..];
    }
  }

  /** Every quote in `e` comes as the first of a pair of quotes, read left to right. */
  predicate Paired(e: string)
    decreases |e|
  {
    if e == [] then true
    else if e[0] == '"' then |e| >= 2 && e[1] == '"' && Paired(e[2..])
    else Paired(e[1..])
  }

  lemma {:induction false} EscapePaired(s: string)
    ensures Paired(Escape(s))
    decreases |s|
  {
    if s != [] {
      EscapePaired(s[1..]);
      var head := if s[0] == '"' then "\"\"" else [s[0]];
      assert Escape(s) == head + Escape(s[1..]);
      if s[0] == '"' {
        assert (head + Escape(s[1..]))[2..] == Escape(s[1..]);
      } else {
        assert (head + Escape(s[1..]))[1..] == Escape(s[1..]);
      }
    }
  }

  /** A quoted field is the text between its outer quotes with every quote doubled. */
  lemma CsvSafeQuoted(s: string)
    requires NeedsQuoting(s)
    ensures var r := CsvSafe(s);
      |r| >= 2 && r[0] == '"' && r[|r| - 1] == '"'
      && Paired(r[1..|r| - 1]) && Unescape(r[1..|r| - 1]) == s
  {
    var r := CsvSafe(s);
    assert r[1..|r| - 1] == Escape(s);
    EscapePaired(s);
    EscapeRoundTrip(s);
  }

  /** `Array.prototype.join(',')`. */
  function Join(fs: seq<string>): string
  {
    if fs == [] then ""
    else if |fs| == 1 then fs[0]
    else fs[0] + "," + Join(fs[1..])
  }

  function SafeAll(fs: seq<string>): (r: seq<string>)
    ensures |r| == |fs|
  {
    if fs == [] then [] else [CsvSafe(fs[0])] + SafeAll(fs[1..])
  }

  lemma {:induction false} SafeAllAt(fs: seq<string>, k: nat)
    requires k < |fs|
    ensures SafeAll(fs)[k] == CsvSafe(fs[k])
    decreases k
  {
    assert SafeAll(fs) == [CsvSafe(fs[0])] + SafeAll(fs[1..]);
    if k > 0 {
      SafeAllAt(fs[1..], k - 1);
      assert fs[1..][k - 1] == fs[k];
    }
  }

  lemma Join5(a: string, b: string, c: string, d: string, e: string)
    ensures Join([a, b, c, d, e]) == a + "," + b + "," + c + "," + d + "," + e
  {
    assert [d, e][1..] == [e];
    assert Join([d, e]) == d + "," + e;
    assert [c, d, e][1..] == [d, e];
    assert Join([c, d, e]) == c + "," + (d + "," + e);
    assert [b, c, d, e][1..] == [c, d, e];
    assert Join([b, c, d, e]) == b + "," + (c + "," + (d + "," + e));
    assert [a, b, c, d, e][1..] == [b, c, d, e];
    assert Join([a, b, c, d, e]) == a + "," + (b + "," + (c + "," + (d + "," + e)));
  }

  /** A record line without its line feed: `fields.map(csvSafe).join(',')`. */
  function EncodeFields(fs: seq<string>): string
  {
    Join(SafeAll(fs))
  }

  /**
   * The splitter as a function of the text still to read, the quote flag,
   * the field being collected and the fields finished so far.  Inside quotes
   * a doubled quote stands for one quote and a single quote closes the
   * quotes; outside quotes a quote opens them and a comma ends the field.
   */
  function Scan(s: string, quoted: bool, cur: string, out: seq<string>): (r: seq<string>)
    ensures |r| > |out| && r[..|out|] == out
    decreases |s|
  {
    if s == [] then out + [cur]
    else if quoted then
      if s[0] == '"' then
        if |s| > 1 && s[1] == '"' then Scan(s[2..], true, cur + "\"", out)
        else Scan(s[1..], false, cur, out)
      else Scan(s[1..], true, cur + [s[0]], out)
    else if s[0] == '"' then Scan(s[1..], true, cur, out)
    else if s[0] == ',' then Scan(s[1..], false, "", out + [cur])
    else Scan(s[1..], false, cur + [s[0]], out)
  }

  /** The fields `splitCsv` returns for a line. */
  function Split(line: string): seq<string>
  {
    Scan(line, false, "", [])
  }

  /**
   * The commas of `s` that stand outside quotes, when `s` is read starting
   * inside quotes or not: a comma is outside quotes exactly when an even
   * number of quote characters precede it.
   */
  function CommasOutside(s: string, quoted: bool): nat
  {
    if s == [] then 0
    else (if s[0] == ',' && !quoted then 1 else 0) + CommasOutside(s[1..], quoted != (s[0] == '"'))
  }

  /** The splitter yields one field more than there are commas outside quotes. */
  lemma {:induction false} ScanCount(s: string, quoted: bool, cur: string, out: seq<string>)
    ensures |Scan(s, quoted, cur, out)| == |out| + 1 + CommasOutside(s, quoted)
    decreases |s|
  {
    if s == [] {
    } else if quoted && s[0] == '"' && |s| > 1 && s[1] == '"' {
      assert s[1..][1..] == s[2..];
      ScanCount(s[2..], true, cur + "\"", out);
    } else if quoted {
      ScanCount(s[1..], s[0] != '"', if s[0] == '"' then cur else cur + [s[0]], out);
    } else if s[0] == '"' {
      ScanCount(s[1..], true, cur, out);
    } else if s[0] == ',' {
      ScanCount(s[1..], false, "", out + [cur]);
    } else {
      ScanCount(s[1..], false, cur + [s[0]], out);
    }
  }

  /** `splitCsv`: a loop over the line with the quote flag, the current field and the output. */
  method SplitCsv(line: string) returns (fields: seq<string>)
    ensures fields == Split(line)
    ensures |fields| == CommasOutside(line, false) + 1
  {
    var out: seq<string> := [];
    var cur: string := "";
    var q := false;
    var i := 0;
    while i < |line|
      invariant 0 <= i <= |line|
      invariant Scan(line[i..], q, cur, out) == Split(line)
    {
      var ch := line[i];
      assert line[i..][1..] == line[i + 1..];
      if q {
        if ch == '"' {
          if i + 1 < |line| && line[i + 1] == '"' {
            assert line[i..][2..] == line[i + 2..];
            cur := cur + "\"";
            i := i + 1;
          } else {
            q := false;
          }
        } else {
          cur := cur + [ch];
        }
      } else {
        if ch == '"' {
          q := true;
        } else if ch == ',' {
          out := out + [cur];
          cur := "";
        } else {
          cur := cur + [ch];
        }
      }
      i := i + 1;
    }
    fields := out + [cur];
    assert line[i..] == [];
    ScanCount(line, false, "", []);
  }

  /** Outside quotes, a run of ordinary characters only grows the current field. */
  lemma {:induction false} ScanPlain(f: string, t: string, cur: string, out: seq<string>)
    requires ',' !in f && '"' !in f
    ensures Scan(f + t, false, cur, out) == Scan(t, false, cur + f, out)
    decreases |f|
  {
    if f == [] {
      assert f + t == t && cur + f == cur;
    } else {
      assert (f + t)[1..] == f[1..] + t;
      assert cur + [f[0]] + f[1..] == cur + f;
      ScanPlain(f[1..], t, cur + [f[0]], out);
    }
  }

  /** Inside quotes, an escaped field followed by the closing quote adds exactly that field's text. */
  lemma {:induction false} ScanEscaped(f: string, t: string, cur: string, out: seq<string>)
    requires t == [] || t[0] != '"'
    ensures Scan(Escape(f) + "\"" + t, true, cur, out) == Scan(t, false, cur + f, out)
    decreases |f|
  {
    var s := Escape(f) + "\"" + t;
    if f == [] {
      assert s == "\"" + t;
      assert s[1..] == t;
      assert cur + f == cur;
    } else if f[0] == '"' {
      assert s == "\"\"" + (Escape(f[1..]) + "\"" + t);
      assert s[2..] == Escape(f[1..]) + "\"" + t;
      assert cur + "\"" + f[1..] == cur + f;
      ScanEscaped(f[1..], t, cur + "\"", out);
    } else {
      assert s == [f[0]] + (Escape(f[1..]) + "\"" + t);
      assert s[1..] == Escape(f[1..]) + "\"" + t;
      assert cur + [f[0]] + f[1..] == cur + f;
      ScanEscaped(f[1..], t, cur + [f[0]], out);
    }
  }

  /** Outside quotes, a quote opens them and is not kept. */
  lemma ScanOpen(b: string, cur: string, out: seq<string>)
    ensures Scan("\"" + b, false, cur, out) == Scan(b, true, cur, out)
  {
    var s := "\"" + b;
    assert s[0] == '"' && s[1..] == b;
  }

  /** One encoded field, followed by a comma or by the end of the line, decodes to that field. */
  lemma ScanField(f: string, t: string, out: seq<string>)
    requires t == [] || t[0] == ','
    ensures Scan(CsvSafe(f) + t, false, "", out) == Scan(t, false, f, out)
  {
    assert "" + f == f;
    if NeedsQuoting(f) {
      var body := Escape(f) + "\"" + t;
      assert CsvSafe(f) + t == "\"" + body;
      ScanOpen(body, "", out);
      ScanEscaped(f, t, "", out);
    } else {
      ScanPlain(f, t, "", out);
    }
  }

  lemma {:induction false} ScanEncoded(fs: seq<string>, out: seq<string>)
    requires |fs| > 0
    ensures Scan(EncodeFields(fs), false, "", out) == out + fs
    decreases |fs|
  {
    if |fs| == 1 {
      assert EncodeFields(fs) == CsvSafe(fs[0]) + "";
      ScanField(fs[0], "", out);
    } else {
      var rest := EncodeFields(fs[1..]);
      assert SafeAll(fs)[1..] == SafeAll(fs[1..]);
      assert EncodeFields(fs) == CsvSafe(fs[0]) + ("," + rest);
      ScanField(fs[0], "," + rest, out);
      assert ("," + rest)[1..] == rest;
      ScanEncoded(fs[1..], out + [fs[0]]);
      assert out + [fs[0]] + fs[1..] == out + fs;
    }
  }

  /** Round trip: splitting the joined, escaped fields gives back the fields. */
  lemma SplitEncoded(fs: seq<string>)
    requires |fs| > 0
    ensures Split(EncodeFields(fs)) == fs
  {
    ScanEncoded(fs, []);
  }

  /** No field with a line feed, no line feed in the record line. */
  lemma {:induction false} EncodedNoNewline(fs: seq<string>)
    requires forall k :: 0 <= k < |fs| ==> '\n' !in fs[k]
    ensures '\n' !in EncodeFields(fs)
    decreases |fs|
  {
    if |fs| > 1 {
      assert SafeAll(fs)[1..] == SafeAll(fs[1..]);
      EncodedNoNewline(fs[1..]);
    }
  }

  /** A record line ends with its last field, when that field needs no quoting. */
  lemma {:induction false} EncodedEnding(fs: seq<string>)
    requires |fs| > 0 && fs[|fs| - 1] != [] && !NeedsQuoting(fs[|fs| - 1])
    ensures var e := EncodeFields(fs); |e| > 0 && e[|e| - 1] == fs[|fs| - 1][|fs[|fs| - 1]| - 1]
    decreases |fs|
  {
    if |fs| > 1 {
      assert SafeAll(fs)[1..] == SafeAll(fs[1..]);
      EncodedEnding(fs[1..]);
    }
  }
}
