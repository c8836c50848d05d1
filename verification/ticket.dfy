/**
 * The ticket service: register an entry, register an exit, look a plate
 * up.  The three CSV stores are the fields of an `Estacionamento`; each
 * holds the text of its file, and a ghost view gives the records that text
 * encodes.
 */
module Ticket {
  import opened Wrappers
  import opened Text
  import opened Billing
  import opened Records
  import opened Repository

  /** The three answers of `consultarPlaca`: ATIVO, SAIU and NAO_ENCONTRADO. */
  datatype Consulta = Ativo(ativo: VeiculoAtivo) | Saiu(saida: VeiculoSaida) | NaoEncontrado

  /** `i` is the first index whose record carries plate `p`. */
  predicate EhPrimeiro(ativos: seq<VeiculoAtivo>, p: string, i: int)
  {
    0 <= i < |ativos| && ativos[i].placa == p && forall j :: 0 <= j < i ==> ativos[j].placa != p
  }

  predicate SemAtivo(ativos: seq<VeiculoAtivo>, p: string)
  {
    forall j :: 0 <= j < |ativos| ==> ativos[j].placa != p
  }

  /**
   * `k` is the exit of plate `p` that sorting the exits of `p` by exit time
   * (stably) puts last: no exit of `p` is later, and every exit of `p` further
   * down the file is strictly earlier.
   */
  predicate EhUltima(saidas: seq<VeiculoSaida>, p: string, k: int)
  {
    0 <= k < |saidas| && saidas[k].base.placa == p
    && (forall j :: 0 <= j < |saidas| && saidas[j].base.placa == p ==> Le(saidas[j].saidaISO, saidas[k].saidaISO))
    && (forall j :: k < j < |saidas| && saidas[j].base.placa == p ==> !Le(saidas[k].saidaISO, saidas[j].saidaISO))
  }

  predicate SemSaida(saidas: seq<VeiculoSaida>, p: string)
  {
    forall j :: 0 <= j < |saidas| ==> saidas[j].base.placa != p
  }

  /** `findIndex` (and `find`) by plate. */
  function PrimeiroIndice(ativos: seq<VeiculoAtivo>, p: string): (r: Option<nat>)
    ensures r.Some? ==> EhPrimeiro(ativos, p, r.value)
    ensures r.None? ==> SemAtivo(ativos, p)
  {
    if ativos == [] then None
    else if ativos[0].placa == p then Some(0)
    else match PrimeiroIndice(ativos[1..], p)
      case None => None
      case Some(i) => Some(i + 1)
  }

  /** The exit `filter` by plate, `sort` by exit time and `pop` select. */
  function UltimaSaida(saidas: seq<VeiculoSaida>, p: string): (r: Option<nat>)
    ensures r.Some? ==> EhUltima(saidas, p, r.value)
    ensures r.None? ==> SemSaida(saidas, p)
    decreases |saidas|
  {
    if saidas == [] then None
    else
      var n := |saidas| - 1;
      var prefix := saidas[..n];
      var prev := UltimaSaida(prefix, p);
      if saidas[n].base.placa != p then
        assert forall j :: 0 <= j < n ==> prefix[j] == saidas[j];
        prev
      else match prev
        case None =>
          assert EhUltima(saidas, p, n) by {
            LeTotal(saidas[n].saidaISO, saidas[n].saidaISO);
            forall j | 0 <= j < n
              ensures saidas[j].base.placa != p
            {
              assert prefix[j] == saidas[j];
            }
          }
          Some(n)
        case Some(k) =>
          if Le(saidas[k].saidaISO, saidas[n].saidaISO) then
            assert EhUltima(saidas, p, n) by {
              LeTotal(saidas[n].saidaISO, saidas[n].saidaISO);
              forall j | 0 <= j < n && saidas[j].base.placa == p
                ensures Le(saidas[j].saidaISO, saidas[n].saidaISO)
              {
                assert prefix[j] == saidas[j];
                LeTransitive(saidas[j].saidaISO, saidas[k].saidaISO, saidas[n].saidaISO);
              }
            }
            Some(n)
          else
            LeTotal(saidas[k].saidaISO, saidas[n].saidaISO);
            assert EhUltima(saidas, p, k) by {
              forall j | 0 <= j < |saidas| && saidas[j].base.placa == p
                ensures Le(saidas[j].saidaISO, saidas[k].saidaISO)
              {
                if j < n {
                  assert prefix[j] == saidas[j];
                }
              }
              forall j | k < j < |saidas| && saidas[j].base.placa == p
                ensures !Le(saidas[k].saidaISO, saidas[j].saidaISO)
              {
                if j < n {
                  assert prefix[j] == saidas[j];
                }
              }
            }
            Some(k)
  }

  /** There is at most one first active record of a plate. */
  lemma PrimeiroUnico(ativos: seq<VeiculoAtivo>, p: string, i1: int, i2: int)
    requires EhPrimeiro(ativos, p, i1) && EhPrimeiro(ativos, p, i2)
    ensures i1 == i2
  {
  }

  /** There is at most one exit that a stable sort by exit time puts last. */
  lemma UltimaUnica(saidas: seq<VeiculoSaida>, p: string, k1: int, k2: int)
    requires EhUltima(saidas, p, k1) && EhUltima(saidas, p, k2)
    ensures k1 == k2
  {
  }

  /** What `consultarPlaca` answers for the normalised plate `p`, given the records of both stores. */
  function Consultar(ativos: seq<VeiculoAtivo>, saidas: seq<VeiculoSaida>, p: string): (r: Consulta)
    ensures match r
      case Ativo(v) => exists i :: EhPrimeiro(ativos, p, i) && ativos[i] == v
      case Saiu(s) => SemAtivo(ativos, p) && exists k :: EhUltima(saidas, p, k) && saidas[k] == s
      case NaoEncontrado => SemAtivo(ativos, p) && SemSaida(saidas, p)
  {
    match PrimeiroIndice(ativos, p)
    case Some(i) => Ativo(ativos[i])
    case None =>
      match UltimaSaida(saidas, p)
      case Some(k) => Saiu(saidas[k])
      case None => NaoEncontrado
  }

  /** The exit record `registrarSaida` builds from an active record. */
  function Fechamento(base: VeiculoAtivo, saidaISO: string, ms: int): VeiculoSaida
  {
    var horas := Horas(ms);
    VeiculoSaida(base, saidaISO, horas, Preco(horas, base.valorHora))
  }

  /**
   * The exit record keeps the active record and the exit time, and bills at
   * least one hour: the least number of whole hours covering the stay.
   */
  lemma FechamentoSpec(base: VeiculoAtivo, saidaISO: string, ms: int)
    ensures var s := Fechamento(base, saidaISO, ms);
      s.base == base && s.saidaISO == saidaISO
      && s.horas >= 1 && s.preco == s.horas * base.valorHora
      && (ms > 0 ==> (s.horas - 1) * MsPerHour < ms <= s.horas * MsPerHour)
      && (ms <= 0 ==> s.horas == 1)
  {
  }

  /** How many records of a store carry plate `p`. */
  function ContaAtivos(ativos: seq<VeiculoAtivo>, p: string): nat
  {
    if ativos == [] then 0 else (if ativos[0].placa == p then 1 else 0) + ContaAtivos(ativos[1..], p)
  }

  function ContaSaidas(saidas: seq<VeiculoSaida>, p: string): nat
  {
    if saidas == [] then 0 else (if saidas[0].base.placa == p then 1 else 0) + ContaSaidas(saidas[1..], p)
  }

  lemma {:induction false} ContaAtivosConcat(a: seq<VeiculoAtivo>, b: seq<VeiculoAtivo>, p: string)
    ensures ContaAtivos(a + b, p) == ContaAtivos(a, p) + ContaAtivos(b, p)
    decreases |a|
  {
    if a == [] {
      assert a + b == b;
    } else {
      assert (a + b)[1..] == a[1..] + b;
      ContaAtivosConcat(a[1..], b, p);
    }
  }

  lemma {:induction false} ContaSaidasConcat(a: seq<VeiculoSaida>, b: seq<VeiculoSaida>, p: string)
    ensures ContaSaidas(a + b, p) == ContaSaidas(a, p) + ContaSaidas(b, p)
    decreases |a|
  {
    if a == [] {
      assert a + b == b;
    } else {
      assert (a + b)[1..] == a[1..] + b;
      ContaSaidasConcat(a[1..], b, p);
    }
  }

  /**
   * An exit moves exactly one record of the plate from the active store to
   * the exit log: one fewer active record of it, one more exit record of it.
   */
  lemma SaidaMoveUm(ativos: seq<VeiculoAtivo>, saidas: seq<VeiculoSaida>, p: string, i: nat, s: VeiculoSaida)
    requires EhPrimeiro(ativos, p, i) && s.base == ativos[i]
    ensures ContaAtivos(ativos[..i] + ativos[i + 1..], p) == ContaAtivos(ativos, p) - 1
    ensures ContaSaidas(saidas + [s], p) == ContaSaidas(saidas, p) + 1
  {
    assert ativos == ativos[..i] + ([ativos[i]] + ativos[i + 1..]);
    ContaAtivosConcat(ativos[..i], [ativos[i]] + ativos[i + 1..], p);
    ContaAtivosConcat([ativos[i]], ativos[i + 1..], p);
    ContaAtivosConcat(ativos[..i], ativos[i + 1..], p);
    ContaSaidasConcat(saidas, [s], p);
  }

  lemma {:induction false} ContaZero(ativos: seq<VeiculoAtivo>, p: string)
    requires ContaAtivos(ativos, p) == 0
    ensures SemAtivo(ativos, p)
    decreases |ativos|
  {
    if ativos != [] {
      ContaZero(ativos[1..], p);
    }
  }

  /** A plate that was active once is no longer active after its exit. */
  lemma SaidaUnicaSome(ativos: seq<VeiculoAtivo>, p: string, i: nat)
    requires EhPrimeiro(ativos, p, i) && ContaAtivos(ativos, p) == 1
    ensures SemAtivo(ativos[..i] + ativos[i + 1..], p)
  {
    SaidaMoveUm(ativos, [], p, i, VeiculoSaida(ativos[i], "", 1, 0));
    ContaZero(ativos[..i] + ativos[i + 1..], p);
  }

  /** A plate just registered is found active by the query for that plate. */
  lemma EntradaConsultada(ativos: seq<VeiculoAtivo>, saidas: seq<VeiculoSaida>, reg: VeiculoAtivo)
    ensures Consultar(ativos + [reg], saidas, reg.placa).Ativo?
    ensures Consultar(ativos + [reg], saidas, reg.placa).ativo.placa == reg.placa
    ensures SemAtivo(ativos, reg.placa) ==> Consultar(ativos + [reg], saidas, reg.placa) == Ativo(reg)
  {
    var all := ativos + [reg];
    assert all[|ativos|].placa == reg.placa;
    if SemAtivo(ativos, reg.placa) {
      assert EhPrimeiro(all, reg.placa, |ativos|);
      var r := Consultar(all, saidas, reg.placa);
      var i :| EhPrimeiro(all, reg.placa, i) && all[i] == r.ativo;
      PrimeiroUnico(all, reg.placa, i, |ativos|);
    }
  }

  /**
   * After the only active record of a plate leaves, the query answers SAIU
   * with that exit, provided its exit time is not earlier than any earlier
   * exit of the plate.
   */
  lemma SaidaConsultada(ativos: seq<VeiculoAtivo>, saidas: seq<VeiculoSaida>, p: string, i: nat, s: VeiculoSaida)
    requires EhPrimeiro(ativos, p, i) && ContaAtivos(ativos, p) == 1 && s.base == ativos[i]
    requires forall j :: 0 <= j < |saidas| && saidas[j].base.placa == p ==> Le(saidas[j].saidaISO, s.saidaISO)
    ensures Consultar(ativos[..i] + ativos[i + 1..], saidas + [s], p) == Saiu(s)
  {
    var rest := ativos[..i] + ativos[i + 1..];
    var all := saidas + [s];
    SaidaUnicaSome(ativos, p, i);
    assert EhUltima(all, p, |saidas|) by {
      forall j | 0 <= j < |all| && all[j].base.placa == p
        ensures Le(all[j].saidaISO, all[|saidas|].saidaISO)
      {
        if j == |saidas| {
          LeTotal(s.saidaISO, s.saidaISO);
        }
      }
    }
    var r := Consultar(rest, all, p);
    var k :| EhUltima(all, p, k) && all[k] == r.saida;
    UltimaUnica(all, p, k, |saidas|);
  }

  /** Dropping one record from a store keeps every remaining record on its own line. */
  lemma SemUmGravavel(l: seq<VeiculoAtivo>, i: nat)
    requires i < |l| && forall k :: 0 <= k < |l| ==> AtivoGravavel(l[k])
    ensures var resto := l[..i] + l[i + 1..];
      forall k :: 0 <= k < |resto| ==> AtivoGravavel(resto[k])
  {
    var resto := l[..i] + l[i + 1..];
    forall k | 0 <= k < |resto|
      ensures AtivoGravavel(resto[k])
    {
      if k < i {
        assert resto[k] == l[k];
      } else {
        assert resto[k] == l[k + 1];
      }
    }
  }

  /** The parking yard: the text of the three stores, and the records each one holds. */
  class Estacionamento {
    var entradasCsv: string
    var ativosCsv: string
    var saidasCsv: string
    ghost var entradas: seq<VeiculoAtivo>
    ghost var ativos: seq<VeiculoAtivo>
    ghost var saidas: seq<VeiculoSaida>

    /** Each store's text is its header followed by one line per record, and every record fits on its line. */
    ghost predicate Valid()
      reads this
    {
      GuardaAtivos(CabEntradas, entradas, entradasCsv)
      && GuardaAtivos(CabAtivos, ativos, ativosCsv)
      && GuardaSaidas(CabSaidas, saidas, saidasCsv)
    }

    /** `preparaAmbiente` on an empty directory: each store holds only its header line. */
    constructor ()
      ensures Valid()
      ensures entradas == [] && ativos == [] && saidas == []
      ensures entradasCsv == CabEntradas + "\n" && ativosCsv == CabAtivos + "\n" && saidasCsv == CabSaidas + "\n"
    {
      entradasCsv := CabEntradas + "\n";
      ativosCsv := CabAtivos + "\n";
      saidasCsv := CabSaidas + "\n";
      entradas, ativos, saidas := [], [], [];
      HeadersClean();
      GuardaVazia(CabEntradas);
      GuardaVazia(CabSaidas);
    }

    /** `lerAtivos` on the active store: the records it holds, in file order. */
    method LerAtivosAtuais() returns (lista: seq<VeiculoAtivo>)
      requires Valid()
      ensures lista == ativos
    {
      LerEscreverAtivos(CabAtivos, ativos);
      var lidos := LerAtivos(ativosCsv);
      lista := lidos.value;
    }

    /** `fs.appendFile` of one active record's line to the entry log. */
    method AnexarEntrada(reg: VeiculoAtivo)
      requires Valid() && AtivoGravavel(reg)
      modifies this
      ensures Valid()
      ensures entradas == old(entradas) + [reg] && entradasCsv == old(entradasCsv) + AtivoToCsv(reg)
      ensures ativos == old(ativos) && ativosCsv == old(ativosCsv)
      ensures saidas == old(saidas) && saidasCsv == old(saidasCsv)
    {
      AnexaAtivo(CabEntradas, entradas, entradasCsv, reg);
      entradasCsv, entradas := entradasCsv + AtivoToCsv(reg), entradas + [reg];
    }

    /** `fs.appendFile` of one active record's line to the active store. */
    method AnexarAtivo(reg: VeiculoAtivo)
      requires Valid() && AtivoGravavel(reg)
      modifies this
      ensures Valid()
      ensures ativos == old(ativos) + [reg] && ativosCsv == old(ativosCsv) + AtivoToCsv(reg)
      ensures entradas == old(entradas) && entradasCsv == old(entradasCsv)
      ensures saidas == old(saidas) && saidasCsv == old(saidasCsv)
    {
      AnexaAtivo(CabAtivos, ativos, ativosCsv, reg);
      ativosCsv, ativos := ativosCsv + AtivoToCsv(reg), ativos + [reg];
    }

    /** `fs.appendFile` of one exit record's line to the exit log. */
    method AnexarSaida(saida: VeiculoSaida)
      requires Valid() && SaidaGravavel(saida)
      modifies this
      ensures Valid()
      ensures saidas == old(saidas) + [saida] && saidasCsv == old(saidasCsv) + SaidaToCsv(saida)
      ensures entradas == old(entradas) && entradasCsv == old(entradasCsv)
      ensures ativos == old(ativos) && ativosCsv == old(ativosCsv)
    {
      AnexaSaida(CabSaidas, saidas, saidasCsv, saida);
      saidasCsv, saidas := saidasCsv + SaidaToCsv(saida), saidas + [saida];
    }

    /** `escreverAtivos`: the active store's text replaced by the header and the lines of `lista`. */
    method EscreverAtivosStore(lista: seq<VeiculoAtivo>)
      requires Valid()
      requires forall k :: 0 <= k < |lista| ==> AtivoGravavel(lista[k])
      modifies this
      ensures Valid()
      ensures ativos == lista && ativosCsv == EscreverAtivos(lista)
      ensures entradas == old(entradas) && entradasCsv == old(entradasCsv)
      ensures saidas == old(saidas) && saidasCsv == old(saidasCsv)
    {
      ativosCsv, ativos := EscreverAtivos(lista), lista;
    }

    /**
     * `registrarEntrada`: builds the record with the normalised plate and the
     * trimmed model and colour, and appends its line to the entry log and to
     * the active store.  `agoraISO` is the clock's reading.
     */
    method RegistrarEntrada(placa: string, modelo: string, cor: string, valorHora: nat, agoraISO: string)
      returns (reg: VeiculoAtivo)
      requires Valid()
      requires '\n' !in placa && '\n' !in modelo && '\n' !in cor && '\n' !in agoraISO
      modifies this
      ensures Valid()
      ensures reg == VeiculoAtivo(agoraISO, NormalizePlate(placa), Trim(modelo), Trim(cor), valorHora)
      ensures entradas == old(entradas) + [reg] && ativos == old(ativos) + [reg] && saidas == old(saidas)
      ensures entradasCsv == old(entradasCsv) + AtivoToCsv(reg)
      ensures ativosCsv == old(ativosCsv) + AtivoToCsv(reg)
      ensures saidasCsv == old(saidasCsv)
    {
      reg := VeiculoAtivo(agoraISO, NormalizePlate(placa), Trim(modelo), Trim(cor), valorHora);
      NormalizeKeepsOutNewline(placa);
      NormalizeKeepsOutNewline(modelo);
      NormalizeKeepsOutNewline(cor);
      AnexarEntrada(reg);
      AnexarAtivo(reg);
    }

    /**
     * `registrarSaida`: finds the first active record of the normalised
     * plate; when there is none, answers None and writes nothing.  Otherwise
     * bills the stay, rewrites the active store without exactly that record
     * and appends the exit record to the exit log.  `saidaISO` is the
     * clock's reading and `msOf` stands for `Date.parse`.
     */
    method RegistrarSaida(placa: string, saidaISO: string, msOf: string -> int)
      returns (r: Option<VeiculoSaida>)
      requires Valid()
      requires '\n' !in saidaISO
      modifies this
      ensures Valid()
      ensures entradas == old(entradas) && entradasCsv == old(entradasCsv)
      ensures r.None? <==> SemAtivo(old(ativos), NormalizePlate(placa))
      ensures r.None? ==> unchanged(this)
      ensures forall i :: r.Some? && EhPrimeiro(old(ativos), NormalizePlate(placa), i) ==>
        r.value == Fechamento(old(ativos)[i], saidaISO, msOf(saidaISO) - msOf(old(ativos)[i].entradaISO))
        && ativos == old(ativos)[..i] + old(ativos)[i + 1..]
      ensures r.Some? ==> saidas == old(saidas) + [r.value] && saidasCsv == old(saidasCsv) + SaidaToCsv(r.value)
    {
      var placaU := NormalizePlate(placa);
      var lista := LerAtivosAtuais();
      var idx := PrimeiroIndice(lista, placaU);
      if idx.None? {
        return None;
      }
      var i := idx.value;
      var base := lista[i];
      var ms := msOf(saidaISO) - msOf(base.entradaISO);
      var saida := Fechamento(base, saidaISO, ms);
      var resto := lista[..i] + lista[i + 1..];
      SemUmGravavel(lista, i);
      EscreverAtivosStore(resto);
      AnexarSaida(saida);
      r := Some(saida);
      forall j | EhPrimeiro(old(ativos), placaU, j)
        ensures j == i
      {
        PrimeiroUnico(old(ativos), placaU, i, j);
      }
    }

    /**
     * `consultarPlaca`: the first active record of the normalised plate if
     * there is one; otherwise its latest exit; otherwise not found.
     */
    method ConsultarPlaca(placa: string) returns (r: Consulta)
      requires Valid()
      ensures r == Consultar(ativos, saidas, NormalizePlate(placa))
    {
      var placaU := NormalizePlate(placa);
      var lista := LerAtivosAtuais();
      var a := PrimeiroIndice(lista, placaU);
      if a.Some? {
        return Ativo(lista[a.value]);
      }
      LerSaidasArquivo(CabSaidas, saidas);
      var lidas := LerSaidas(saidasCsv);
      var ultima := UltimaSaida(lidas.value, placaU);
      if ultima.Some? {
        return Saiu(lidas.value[ultima.value]);
      }
      return NaoEncontrado;
    }
  }
}
