/**
 * The CSV stores as text: a header line followed by one line per record,
 * each ending in a line feed.  Reading a store splits it at every line
 * break (`\n` or `\r\n`), drops the empty lines, skips the header and
 * decodes the rest; writing the active store replaces its whole text.
 */
module Repository {
  import opened Wrappers
  import opened Numbers
  import opened Records
  import Csv

  /** The header lines of the three stores (the entry log and the active store share one). */
  const CabEntradas: string := "entradaISO," + "placa,modelo,cor," + "valorHora"
  const CabAtivos: string := "entradaISO," + "placa,modelo,cor," + "valorHora"
  const CabSaidas: string := "entradaISO," + "saidaISO," + "placa,modelo,cor," + "valorHora," + "horas,preco"

  /** The text of a store whose lines are `ls`: each line followed by a line feed. */
  function Unlines(ls: seq<string>): string
  {
    if ls == [] then "" else ls[0] + "\n" + Unlines(ls[1..])
  }

  /** The `\r` of a `\r\n` break is not part of the line before it. */
  function DropCR(l: string): string
  {
    if |l| > 0 && l[|l| - 1] == '\r' then l[..|l| - 1] else l
  }

  function SplitLinesFrom(s: string, cur: string): (r: seq<string>)
    ensures |r| > 0
    decreases |s|
  {
    if s == [] then [cur]
    else if s[0] == '\n' then [DropCR(cur)] + SplitLinesFrom(s[1..], "")
    else SplitLinesFrom(s[1..], cur + [s[0]])
  }

  /** `raw.split(/\r?\n/)`. */
  function SplitLines(raw: string): seq<string>
  {
    SplitLinesFrom(raw, "")
  }

  /** `filter(Boolean)`: the empty lines dropped. */
  function NonEmpty(ls: seq<string>): (r: seq<string>)
    ensures forall k :: 0 <= k < |r| ==> r[k] != []
  {
    if ls == [] then []
    else if ls[0] == [] then NonEmpty(ls[1..])
    else [ls[0]] + NonEmpty(ls[1..])
  }

  /** The record lines of a store: the non-empty lines after the header (`slice(1)`). */
  function Body(raw: string): seq<string>
  {
    var ls := NonEmpty(SplitLines(raw));
    if ls == [] then [] else ls[1..]
  }

  function DecodeAtivos(ls: seq<string>): (r: Option<seq<VeiculoAtivo>>)
    ensures r.Some? ==> |r.value| == |ls|
  {
    if ls == [] then Some([])
    else match (DecodeAtivo(ls[0]), DecodeAtivos(ls[1..]))
      case (Some(v), Some(vs)) => Some([v] + vs)
      case _ => None
  }

  function DecodeSaidas(ls: seq<string>): (r: Option<seq<VeiculoSaida>>)
    ensures r.Some? ==> |r.value| == |ls|
  {
    if ls == [] then Some([])
    else match (DecodeSaida(ls[0]), DecodeSaidas(ls[1..]))
      case (Some(s), Some(ss)) => Some([s] + ss)
      case _ => None
  }

  /** `lerAtivos`: the active records of the active store's text, None when a row does not decode. */
  function LerAtivos(raw: string): Option<seq<VeiculoAtivo>>
  {
    DecodeAtivos(Body(raw))
  }

  /** The exit log as `consultarPlaca` reads it. */
  function LerSaidas(raw: string): Option<seq<VeiculoSaida>>
  {
    DecodeSaidas(Body(raw))
  }

  function AtivoLines(l: seq<VeiculoAtivo>): (r: seq<string>)
    ensures |r| == |l|
  {
    if l == [] then [] else [AtivoLine(l[0])] + AtivoLines(l[1..])
  }

  function SaidaLines(l: seq<VeiculoSaida>): (r: seq<string>)
    ensures |r| == |l|
  {
    if l == [] then [] else [SaidaLine(l[0])] + SaidaLines(l[1..])
  }

  /** The text of a store holding `l` under `header`: what `escreverAtivos` writes. */
  function AtivosArquivo(header: string, l: seq<VeiculoAtivo>): string
  {
    Unlines([header] + AtivoLines(l))
  }

  /** `escreverAtivos`: the header and one line per record, in order. */
  function EscreverAtivos(l: seq<VeiculoAtivo>): string
  {
    AtivosArquivo(CabAtivos, l)
  }

  /** The text of the exit log holding `l`. */
  function SaidasArquivo(header: string, l: seq<VeiculoSaida>): string
  {
    Unlines([header] + SaidaLines(l))
  }

  /** A line that survives a write and a read: no line feed, not empty, not ending in `\r`. */
  predicate CleanLine(l: string)
  {
    '\n' !in l && |l| > 0 && l[|l| - 1] != '\r'
  }

  lemma {:induction false} UnlinesAppend(ls: seq<string>, x: string)
    ensures Unlines(ls + [x]) == Unlines(ls) + x + "\n"
    decreases |ls|
  {
    if ls == [] {
      assert [] + [x] == [x];
    } else {
      assert (ls + [x])[1..] == ls[1..] + [x];
      UnlinesAppend(ls[1..], x);
    }
  }

  lemma {:induction false} AtivoLinesAppend(l: seq<VeiculoAtivo>, v: VeiculoAtivo)
    ensures AtivoLines(l + [v]) == AtivoLines(l) + [AtivoLine(v)]
    decreases |l|
  {
    if l == [] {
      assert [] + [v] == [v];
    } else {
      assert (l + [v])[1..] == l[1..] + [v];
      AtivoLinesAppend(l[1..], v);
    }
  }

  lemma {:induction false} SaidaLinesAppend(l: seq<VeiculoSaida>, s: VeiculoSaida)
    ensures SaidaLines(l + [s]) == SaidaLines(l) + [SaidaLine(s)]
    decreases |l|
  {
    if l == [] {
      assert [] + [s] == [s];
    } else {
      assert (l + [s])[1..] == l[1..] + [s];
      SaidaLinesAppend(l[1..], s);
    }
  }

  /** Appending one record's line to a store is the same as writing the store with the record added at the end. */
  lemma AppendAtivo(header: string, l: seq<VeiculoAtivo>, v: VeiculoAtivo)
    ensures AtivosArquivo(header, l) + AtivoToCsv(v) == AtivosArquivo(header, l + [v])
  {
    AtivoLinesAppend(l, v);
    assert [header] + AtivoLines(l + [v]) == ([header] + AtivoLines(l)) + [AtivoLine(v)];
    UnlinesAppend([header] + AtivoLines(l), AtivoLine(v));
  }

  /** The same for the exit log. */
  lemma AppendSaida(header: string, l: seq<VeiculoSaida>, s: VeiculoSaida)
    ensures SaidasArquivo(header, l) + SaidaToCsv(s) == SaidasArquivo(header, l + [s])
  {
    SaidaLinesAppend(l, s);
    assert [header] + SaidaLines(l + [s]) == ([header] + SaidaLines(l)) + [SaidaLine(s)];
    UnlinesAppend([header] + SaidaLines(l), SaidaLine(s));
  }

  /** Reading across a line without a line feed just collects it. */
  lemma {:induction false} SplitAcross(l: string, t: string, cur: string)
    requires '\n' !in l
    ensures SplitLinesFrom(l + t, cur) == SplitLinesFrom(t, cur + l)
    decreases |l|
  {
    if l == [] {
      assert l + t == t && cur + l == cur;
    } else {
      assert (l + t)[1..] == l[1..] + t;
      assert cur + [l[0]] + l[1..] == cur + l;
      SplitAcross(l[1..], t, cur + [l[0]]);
    }
  }

  /** Splitting the text of clean lines gives those lines and the empty piece after the last line feed. */
  lemma {:induction false} SplitUnlines(ls: seq<string>)
    requires forall k :: 0 <= k < |ls| ==> CleanLine(ls[k])
    ensures SplitLines(Unlines(ls)) == ls + [""]
    decreases |ls|
  {
    if ls != [] {
      var rest := Unlines(ls[1..]);
      assert Unlines(ls) == ls[0] + ("\n" + rest);
      SplitAcross(ls[0], "\n" + rest, "");
      assert "" + ls[0] == ls[0];
      assert ("\n" + rest)[1..] == rest;
      assert DropCR(ls[0]) == ls[0];
      SplitUnlines(ls[1..]);
    }
  }

  lemma {:induction false} NonEmptyKeeps(ls: seq<string>)
    requires forall k :: 0 <= k < |ls| ==> ls[k] != []
    ensures NonEmpty(ls + [""]) == ls
    decreases |ls|
  {
    if ls != [] {
      assert (ls + [""])[1..] == ls[1..] + [""];
      NonEmptyKeeps(ls[1..]);
    }
  }

  /** Reading a store's text gives back every line written after the header. */
  lemma BodyUnlines(ls: seq<string>)
    requires |ls| > 0 && forall k :: 0 <= k < |ls| ==> CleanLine(ls[k])
    ensures Body(Unlines(ls)) == ls[1..]
  {
    SplitUnlines(ls);
    NonEmptyKeeps(ls);
  }

  lemma HeadersClean()
    ensures CleanLine(CabAtivos) && CleanLine(CabEntradas) && CleanLine(CabSaidas)
  {
    assert '\n' !in "entradaISO,";
    assert '\n' !in "saidaISO,";
    assert '\n' !in "placa,modelo,cor,";
    assert '\n' !in "valorHora";
    assert '\n' !in "valorHora,";
    assert '\n' !in "horas,preco";
  }

  lemma {:induction false} AtivoLinesClean(l: seq<VeiculoAtivo>)
    requires forall k :: 0 <= k < |l| ==> AtivoGravavel(l[k])
    ensures forall k :: 0 <= k < |l| ==> CleanLine(AtivoLines(l)[k])
    decreases |l|
  {
    if l != [] {
      AtivoLineShape(l[0]);
      AtivoLinesClean(l[1..]);
    }
  }

  lemma {:induction false} SaidaLinesClean(l: seq<VeiculoSaida>)
    requires forall k :: 0 <= k < |l| ==> SaidaGravavel(l[k])
    ensures forall k :: 0 <= k < |l| ==> CleanLine(SaidaLines(l)[k])
    decreases |l|
  {
    if l != [] {
      SaidaLineShape(l[0]);
      SaidaLinesClean(l[1..]);
    }
  }

  lemma {:induction false} DecodeAtivoLines(l: seq<VeiculoAtivo>)
    ensures DecodeAtivos(AtivoLines(l)) == Some(l)
    decreases |l|
  {
    if l != [] {
      var ls := AtivoLines(l);
      assert ls[0] == AtivoLine(l[0]) && ls[1..] == AtivoLines(l[1..]);
      AtivoRoundTrip(l[0]);
      DecodeAtivoLines(l[1..]);
      assert DecodeAtivos(ls) == Some([l[0]] + l[1..]);
      assert [l[0]] + l[1..] == l;
    }
  }

  lemma {:induction false} DecodeSaidaLines(l: seq<VeiculoSaida>)
    ensures DecodeSaidas(SaidaLines(l)) == Some(l)
    decreases |l|
  {
    if l != [] {
      var ls := SaidaLines(l);
      assert ls[0] == SaidaLine(l[0]) && ls[1..] == SaidaLines(l[1..]);
      SaidaRoundTrip(l[0]);
      DecodeSaidaLines(l[1..]);
      assert DecodeSaidas(ls) == Some([l[0]] + l[1..]);
      assert [l[0]] + l[1..] == l;
    }
  }

  /** Full-replace store round trip: reading what `escreverAtivos` wrote gives the same records in the same order. */
  lemma LerEscreverAtivos(header: string, l: seq<VeiculoAtivo>)
    requires CleanLine(header)
    requires forall k :: 0 <= k < |l| ==> AtivoGravavel(l[k])
    ensures LerAtivos(AtivosArquivo(header, l)) == Some(l)
  {
    var ls := [header] + AtivoLines(l);
    AtivoLinesClean(l);
    BodyUnlines(ls);
    assert ls[1..] == AtivoLines(l);
    DecodeAtivoLines(l);
  }

  /** Exit log round trip: reading the exit log's text gives every exit record in order. */
  lemma LerSaidasArquivo(header: string, l: seq<VeiculoSaida>)
    requires CleanLine(header)
    requires forall k :: 0 <= k < |l| ==> SaidaGravavel(l[k])
    ensures LerSaidas(SaidasArquivo(header, l)) == Some(l)
  {
    var ls := [header] + SaidaLines(l);
    SaidaLinesClean(l);
    BodyUnlines(ls);
    assert ls[1..] == SaidaLines(l);
    DecodeSaidaLines(l);
  }

  /** `txt` is a store of active records: a clean header, then the line of each record of `l`. */
  predicate GuardaAtivos(header: string, l: seq<VeiculoAtivo>, txt: string)
  {
    CleanLine(header) && (forall k :: 0 <= k < |l| ==> AtivoGravavel(l[k])) && txt == AtivosArquivo(header, l)
  }

  /** `txt` is a store of exit records. */
  predicate GuardaSaidas(header: string, l: seq<VeiculoSaida>, txt: string)
  {
    CleanLine(header) && (forall k :: 0 <= k < |l| ==> SaidaGravavel(l[k])) && txt == SaidasArquivo(header, l)
  }

  /** A store holding only its header line holds no records. */
  lemma GuardaVazia(header: string)
    requires CleanLine(header)
    ensures GuardaAtivos(header, [], header + "\n") && GuardaSaidas(header, [], header + "\n")
    ensures LerAtivos(header + "\n") == Some([]) && LerSaidas(header + "\n") == Some([])
  {
    assert Unlines([header]) == header + "\n" + Unlines([]);
    assert [header] + AtivoLines([]) == [header];
    assert [header] + SaidaLines([]) == [header];
    LerEscreverAtivos(header, []);
    LerSaidasArquivo(header, []);
  }

  /** Appending a record's line to an active-records store keeps it a store, with the record added last. */
  lemma AnexaAtivo(header: string, l: seq<VeiculoAtivo>, txt: string, v: VeiculoAtivo)
    requires GuardaAtivos(header, l, txt) && AtivoGravavel(v)
    ensures GuardaAtivos(header, l + [v], txt + AtivoToCsv(v))
  {
    AppendAtivo(header, l, v);
  }

  /** Appending an exit record's line to an exit store keeps it a store, with the record added last. */
  lemma AnexaSaida(header: string, l: seq<VeiculoSaida>, txt: string, s: VeiculoSaida)
    requires GuardaSaidas(header, l, txt) && SaidaGravavel(s)
    ensures GuardaSaidas(header, l + [s], txt + SaidaToCsv(s))
  {
    AppendSaida(header, l, s);
  }

  /*
   * The round trips above need records without line feeds: the reader
   * splits the text at line breaks before it looks at quotes, so a quoted
   * field holding a line feed comes back as two broken lines.
   */

  lemma UmRegistro(v: VeiculoAtivo)
    ensures EscreverAtivos([v]) == CabAtivos + "\n" + AtivoLine(v) + "\n"
  {
    var line := AtivoLine(v);
    assert AtivoLines([v]) == [line];
    assert [CabAtivos] + [line] == [CabAtivos, line];
    assert Unlines([line]) == line + "\n" + Unlines([]);
  }

  lemma TresLinhas(a: string, b: string, c: string)
    ensures Unlines([a, b, c]) == a + "\n" + (b + "\n" + c) + "\n"
  {
    assert Unlines([c]) == c + "\n" + Unlines([]);
    assert [a, b, c][1..] == [b, c] && [b, c][1..] == [c];
    assert Unlines([b, c]) == b + "\n" + Unlines([c]);
  }

  /**
   * A record whose line is broken by a line feed into two clean pieces is
   * read back from the active store as two records, or not at all.
   */
  lemma LinhaPartida(v: VeiculoAtivo, l1: string, l2: string)
    requires AtivoLine(v) == l1 + "\n" + l2 && CleanLine(l1) && CleanLine(l2)
    ensures LerAtivos(EscreverAtivos([v])) != Some([v])
  {
    var ls := [CabAtivos, l1, l2];
    UmRegistro(v);
    TresLinhas(CabAtivos, l1, l2);
    HeadersClean();
    assert forall k :: 0 <= k < |ls| ==> CleanLine(ls[k]);
    BodyUnlines(ls);
    assert |Body(EscreverAtivos([v]))| == 2;
  }

  /** An active record whose model text holds a line feed. */
  const Quebrado := VeiculoAtivo("t", "P", "a\nb", "c", 100)

  lemma QuotaQuebra()
    ensures Csv.CsvSafe("a\nb") == "\"a" + "\n" + "b\""
  {
    var e := "a\nb";
    assert Csv.NeedsQuoting(e);
    assert Csv.Escape(e[2..]) == [e[2]] + Csv.Escape(e[3..]);
    assert Csv.Escape(e[1..]) == [e[1]] + Csv.Escape(e[2..]);
    assert Csv.Escape(e) == [e[0]] + Csv.Escape(e[1..]);
  }

  lemma CamposQuebrados()
    ensures AtivoLine(Quebrado) == "t" + "," + "P" + "," + ("\"a" + "\n" + "b\"") + "," + "c" + "," + "1"
  {
    assert MoneyText(100) == "1" by {
      assert NatText(1) == "1";
    }
    QuotaQuebra();
    assert Csv.CsvSafe("t") == "t";
    assert Csv.CsvSafe("P") == "P";
    assert Csv.CsvSafe("c") == "c";
    assert Csv.CsvSafe("1") == "1";
    AtivoLineJoin(Quebrado);
  }

  lemma Reparte(a: string, b: string, x: string, y: string, c: string, d: string)
    ensures a + "," + b + "," + (x + "\n" + y) + "," + c + "," + d
      == (a + "," + b + "," + x) + "\n" + (y + "," + c + "," + d)
  {
  }

  /** The no-line-feed requirement of `LerEscreverAtivos` cannot be dropped. */
  lemma QuebraDeLinha()
    ensures LerAtivos(EscreverAtivos([Quebrado])) != Some([Quebrado])
  {
    var x, y := "\"a", "b\"";
    var l1 := "t" + "," + "P" + "," + x;
    var l2 := y + "," + "c" + "," + "1";
    CamposQuebrados();
    Reparte("t", "P", x, y, "c", "1");
    assert '\n' !in x && '\n' !in y;
    assert CleanLine(l1) && CleanLine(l2);
    LinhaPartida(Quebrado, l1, l2);
  }
}
