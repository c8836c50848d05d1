/**
 * The two records of the ticket system, an active vehicle and a finished
 * stay, and their CSV lines: five fields for an active vehicle, eight for an
 * exit, in the column order of the store headers.
 */
module Records {
  import opened Wrappers
  import opened Numbers
  import opened Csv

  /** A vehicle in the yard. Money is in cents. */
  datatype VeiculoAtivo = VeiculoAtivo(
    entradaISO: string,
    placa: string,
    modelo: string,
    cor: string,
    valorHora: nat)

  /** A finished stay: the active record it came from, unchanged, and what was billed. */
  datatype VeiculoSaida = VeiculoSaida(
    base: VeiculoAtivo,
    saidaISO: string,
    horas: nat,
    preco: nat)

  function AtivoFields(v: VeiculoAtivo): seq<string>
  {
    [v.entradaISO, v.placa, v.modelo, v.cor, MoneyText(v.valorHora)]
  }

  /** The line `ativoToCsv` writes, without its line feed. */
  function AtivoLine(v: VeiculoAtivo): string
  {
    EncodeFields(AtivoFields(v))
  }

  /** An active record's line, field by field. */
  lemma AtivoLineJoin(v: VeiculoAtivo)
    ensures AtivoLine(v) == CsvSafe(v.entradaISO) + "," + CsvSafe(v.placa) + "," + CsvSafe(v.modelo)
      + "," + CsvSafe(v.cor) + "," + CsvSafe(MoneyText(v.valorHora))
  {
    var fs := AtivoFields(v);
    forall k | 0 <= k < 5
      ensures SafeAll(fs)[k] == CsvSafe(fs[k])
    {
      SafeAllAt(fs, k);
    }
    assert SafeAll(fs) == [CsvSafe(fs[0]), CsvSafe(fs[1]), CsvSafe(fs[2]), CsvSafe(fs[3]), CsvSafe(fs[4])];
    Join5(CsvSafe(fs[0]), CsvSafe(fs[1]), CsvSafe(fs[2]), CsvSafe(fs[3]), CsvSafe(fs[4]));
  }

  /** `ativoToCsv`. */
  function AtivoToCsv(v: VeiculoAtivo): string
  {
    AtivoLine(v) + "\n"
  }

  function SaidaFields(s: VeiculoSaida): seq<string>
  {
    [s.base.entradaISO, s.saidaISO, s.base.placa, s.base.modelo, s.base.cor,
     MoneyText(s.base.valorHora), NatText(s.horas), MoneyText(s.preco)]
  }

  /** The line `saidaToCsv` writes, without its line feed. */
  function SaidaLine(s: VeiculoSaida): string
  {
    EncodeFields(SaidaFields(s))
  }

  /** `saidaToCsv`. */
  function SaidaToCsv(s: VeiculoSaida): string
  {
    SaidaLine(s) + "\n"
  }

  /**
   * The active record read from the fields of one line: the first five
   * fields in header order (any further field is ignored), the rate read as
   * an amount.
   */
  function AtivoFromFields(fs: seq<string>): (r: Option<VeiculoAtivo>)
    ensures r.Some? ==> |fs| >= 5 && r.value.placa == fs[1] && ParseMoney(fs[4]) == Some(r.value.valorHora)
  {
    if |fs| < 5 then None
    else match ParseMoney(fs[4])
      case None => None
      case Some(rate) => Some(VeiculoAtivo(fs[0], fs[1], fs[2], fs[3], rate))
  }

  function DecodeAtivo(line: string): Option<VeiculoAtivo>
  {
    AtivoFromFields(Split(line))
  }

  /** The exit record read from the fields of one line, in header order. */
  function SaidaFromFields(fs: seq<string>): (r: Option<VeiculoSaida>)
    ensures r.Some? ==> |fs| >= 8 && r.value.base.placa == fs[2] && r.value.saidaISO == fs[1]
  {
    if |fs| < 8 then None
    else match (ParseMoney(fs[5]), ParseNat(fs[6]), ParseMoney(fs[7]))
      case (Some(rate), Some(h), Some(p)) =>
        Some(VeiculoSaida(VeiculoAtivo(fs[0], fs[2], fs[3], fs[4], rate), fs[1], h, p))
      case _ => None
  }

  function DecodeSaida(line: string): Option<VeiculoSaida>
  {
    SaidaFromFields(Split(line))
  }

  /** Decoding the line of an active record gives that record back. */
  lemma AtivoRoundTrip(v: VeiculoAtivo)
    ensures DecodeAtivo(AtivoLine(v)) == Some(v)
  {
    SplitEncoded(AtivoFields(v));
    MoneyRoundTrip(v.valorHora);
  }

  /** Decoding the line of an exit record gives that record back. */
  lemma SaidaRoundTrip(s: VeiculoSaida)
    ensures DecodeSaida(SaidaLine(s)) == Some(s)
  {
    SplitEncoded(SaidaFields(s));
    MoneyRoundTrip(s.base.valorHora);
    NatRoundTrip(s.horas);
    MoneyRoundTrip(s.preco);
  }

  /** A record fits on one line of its store when none of its text fields holds a line feed. */
  predicate AtivoGravavel(v: VeiculoAtivo)
  {
    '\n' !in v.entradaISO && '\n' !in v.placa && '\n' !in v.modelo && '\n' !in v.cor
  }

  predicate SaidaGravavel(s: VeiculoSaida)
  {
    AtivoGravavel(s.base) && '\n' !in s.saidaISO
  }

  /** What a number's text cannot hold: none of the characters that force quoting. */
  lemma NumberTextPlain(t: string)
    requires forall k :: 0 <= k < |t| ==> IsDigit(t[k]) || t[k] == '.'
    ensures !NeedsQuoting(t)
  {
  }

  /** Shape of a record line: non-empty, no line feed, and its last character is a digit. */
  lemma LineShape(fs: seq<string>)
    requires |fs| > 0 && forall k :: 0 <= k < |fs| ==> '\n' !in fs[k]
    requires var last := fs[|fs| - 1];
      |last| > 0 && IsDigit(last[|last| - 1]) && forall k :: 0 <= k < |last| ==> IsDigit(last[k]) || last[k] == '.'
    ensures var e := EncodeFields(fs); '\n' !in e && |e| > 0 && IsDigit(e[|e| - 1])
  {
    EncodedNoNewline(fs);
    NumberTextPlain(fs[|fs| - 1]);
    EncodedEnding(fs);
  }

  lemma AtivoLineShape(v: VeiculoAtivo)
    requires AtivoGravavel(v)
    ensures var e := AtivoLine(v); '\n' !in e && |e| > 0 && IsDigit(e[|e| - 1])
  {
    var fs := AtivoFields(v);
    NumberTextPlain(fs[4]);
    LineShape(fs);
  }

  lemma SaidaLineShape(s: VeiculoSaida)
    requires SaidaGravavel(s)
    ensures var e := SaidaLine(s); '\n' !in e && |e| > 0 && IsDigit(e[|e| - 1])
  {
    var fs := SaidaFields(s);
    NumberTextPlain(fs[5]);
    NumberTextPlain(fs[6]);
    NumberTextPlain(fs[7]);
    LineShape(fs);
  }
}
