/**
 * Processing of the raw public-API payloads: the demographic totals taken from
 * IBGE SIDRA rows, the top-10 hospital and radiology lists taken from health
 * establishment rows, and the education record. The HTTP fetchers themselves
 * are not part of this model; their payloads are the inputs here.
 */
module FetchRealData {
  import opened Wrappers
  import opened Text
  import opened Demografia
  import Sorting

  /**
   * A numeric field that is present, as Python's `int(...)` sees it: a value
   * that converts to an integer, a value that makes `int` raise `ValueError`
   * (text that is not an integer), or JSON null, on which `int(None)` raises
   * `TypeError`.
   */
  datatype Num = Int(n: int) | NotInt | Null

  /** The exception that aborts the processing. */
  datatype Falha =
    | ValueError   // `int(...)` on a value that is not an integer
    | TypeError    // `int(None)`, or `'...' in None` on a counted SIDRA row without an age-group name

  /** A SIDRA row; `None` is a missing key. */
  datatype LinhaSidra = LinhaSidra(d2c: Option<string>, d3c: Option<string>, d4n: Option<string>, v: Option<Num>)

  datatype Totais = Totais(criancas: int, pea: int, idosos: int)

  datatype IndicesReais = IndicesReais(criancasPea: real, idososPea: real, populacaoTotal: int)

  // ---------------------------------------------------------------------------
  // calcular_indices_demograficos_reais
  // ---------------------------------------------------------------------------

  /** Only rows whose `D2C` and `D3C` are both 'Total' are looked at. */
  predicate Contabilizada(l: LinhaSidra) {
    l.d2c == Some("Total") && l.d3c == Some("Total")
  }

  /** `int(item.get('V', 0))`: the integer, or the exception it raises. */
  function Valor(l: LinhaSidra): Result<int, Falha> {
    match l.v
    case None => Success(0)
    case Some(Int(n)) => Success(n)
    case Some(NotInt) => Failure(ValueError)
    case Some(Null) => Failure(TypeError)
  }

  /** The if/elif chain on the age-group name: children first, then PEA, then elderly. */
  function GrupoSidra(nome: string): Option<Grupo> {
    if Occurs("0 a 14 anos", nome) then Some(Criancas)
    else if Occurs("15 a 59 anos", nome) then Some(Pea)
    else if Occurs("60 anos ou mais", nome) then Some(Idosos)
    else None
  }

  function Adicionar(t: Totais, g: Grupo, v: int): Totais {
    match g
    case Criancas => t.(criancas := t.criancas + v)
    case Pea => t.(pea := t.pea + v)
    case Idosos => t.(idosos := t.idosos + v)
  }

  /** One iteration of the loop over the rows. */
  function Passo(t: Totais, l: LinhaSidra): Result<Totais, Falha> {
    if !Contabilizada(l) then Success(t)
    else if Valor(l).Failure? then Failure(Valor(l).error)
    else if l.d4n.None? then Failure(TypeError)
    else match GrupoSidra(l.d4n.value)
      case None => Success(t)
      case Some(g) => Success(Adicionar(t, g, Valor(l).value))
  }

  /** The counters after the loop over `linhas`, or the exception that stopped it. */
  function Acumular(linhas: seq<LinhaSidra>): (r: Result<Totais, Falha>)
    ensures (forall i :: 0 <= i < |linhas| ==> !Contabilizada(linhas[i])) ==> r == Success(Totais(0, 0, 0))
  {
    if linhas == [] then Success(Totais(0, 0, 0))
    else match Acumular(linhas[..|linhas| - 1])
      case Failure(e) => Failure(e)
      case Success(t) => Passo(t, linhas[|linhas| - 1])
  }

  /** A row that makes the loop raise, and which exception. */
  function FalhaDaLinha(l: LinhaSidra): Option<Falha> {
    if !Contabilizada(l) then None
    else if Valor(l).Failure? then Some(Valor(l).error)
    else if l.d4n.None? then Some(TypeError)
    else None
  }

  /** Row `i` is the first row that makes the loop raise. */
  predicate PrimeiraFalha(linhas: seq<LinhaSidra>, i: int) {
    0 <= i < |linhas| && FalhaDaLinha(linhas[i]).Some? && forall k :: 0 <= k < i ==> FalhaDaLinha(linhas[k]).None?
  }

  /** Reference definition: the sum of the values of the counted rows whose age-group name falls in group `g`. */
  function SomaGrupo(linhas: seq<LinhaSidra>, g: Grupo): int {
    if linhas == [] then 0
    else
      var l := linhas[0];
      (if Contabilizada(l) && Valor(l).Success? && l.d4n.Some? && GrupoSidra(l.d4n.value) == Some(g)
       then Valor(l).value else 0)
      + SomaGrupo(linhas[1..], g)
  }

  /** Reference definition: the sum of the values of every counted row that belongs to some group. */
  function SomaClassificada(linhas: seq<LinhaSidra>): int {
    if linhas == [] then 0
    else
      var l := linhas[0];
      (if Contabilizada(l) && Valor(l).Success? && l.d4n.Some? && GrupoSidra(l.d4n.value).Some?
       then Valor(l).value else 0)
      + SomaClassificada(linhas[1..])
  }

  function IndicesDe(t: Totais): IndicesReais {
    IndicesReais(IndicePea(t.criancas, t.pea), IndicePea(t.idosos, t.pea), t.criancas + t.pea + t.idosos)
  }

  /**
   * `calcular_indices_demograficos_reais`: the loop adds each counted row's value
   * to at most one counter, then the indices and the total are derived from the
   * counters.
   */
  method CalcularIndicesDemograficosReais(linhas: seq<LinhaSidra>) returns (r: Result<IndicesReais, Falha>)
    ensures r.Failure? <==> exists i :: 0 <= i < |linhas| && FalhaDaLinha(linhas[i]).Some?
    ensures r.Failure? ==> exists i :: PrimeiraFalha(linhas, i) && FalhaDaLinha(linhas[i]) == Some(r.error)
    ensures r.Success? ==> r.value == IndicesDe(Totais(SomaGrupo(linhas, Criancas), SomaGrupo(linhas, Pea), SomaGrupo(linhas, Idosos)))
    ensures r.Success? ==> r.value.populacaoTotal == SomaClassificada(linhas)
    ensures r.Success? && SomaGrupo(linhas, Pea) <= 0 ==> r.value.criancasPea == 0.0 && r.value.idososPea == 0.0
  {
    var criancasPop, peaPop, idososPop := 0, 0, 0;
    var i := 0;
    while i < |linhas|
      invariant 0 <= i <= |linhas|
      invariant Acumular(linhas[..i]) == Success(Totais(criancasPop, peaPop, idososPop))
    {
      var item := linhas[i];
      AcumularPasso(linhas, i);
      if item.d2c == Some("Total") && item.d3c == Some("Total") {
        var populacao: int;
        match item.v {
          case None => populacao := 0;
          case Some(Int(n)) => populacao := n;
          case Some(NotInt) =>
            r := Failure(ValueError);
            AcumularPrefix(linhas, i + 1);
            IndicesReaisContract(linhas, r);
            return;
          case Some(Null) =>
            r := Failure(TypeError);
            AcumularPrefix(linhas, i + 1);
            IndicesReaisContract(linhas, r);
            return;
        }
        if item.d4n.None? {
          r := Failure(TypeError);
          AcumularPrefix(linhas, i + 1);
          IndicesReaisContract(linhas, r);
          return;
        }
        var idadeGrupo := item.d4n.value;
        if Occurs("0 a 14 anos", idadeGrupo) {
          criancasPop := criancasPop + populacao;
        } else if Occurs("15 a 59 anos", idadeGrupo) {
          peaPop := peaPop + populacao;
        } else if Occurs("60 anos ou mais", idadeGrupo) {
          idososPop := idososPop + populacao;
        }
      }
      i := i + 1;
    }
    assert linhas[..i] == linhas;
    r := Success(IndicesDe(Totais(criancasPop, peaPop, idososPop)));
    IndicesReaisContract(linhas, r);
  }

  /** The loop's outcome: the exception, or the indices derived from the counters. */
  function ResultadoReais(linhas: seq<LinhaSidra>): Result<IndicesReais, Falha> {
    match Acumular(linhas)
    case Failure(e) => Failure(e)
    case Success(t) => Success(IndicesDe(t))
  }

  /**
   * The outcome raises exactly when some counted row is bad, with the exception
   * of the first bad row; otherwise the counters are the reference sums and
   * the indices are zero when the PEA is not positive.
   */
  lemma IndicesReaisContract(linhas: seq<LinhaSidra>, r: Result<IndicesReais, Falha>)
    requires r == ResultadoReais(linhas)
    ensures r.Failure? <==> exists i :: 0 <= i < |linhas| && FalhaDaLinha(linhas[i]).Some?
    ensures r.Failure? ==> exists i :: PrimeiraFalha(linhas, i) && FalhaDaLinha(linhas[i]) == Some(r.error)
    ensures r.Success? ==> r.value == IndicesDe(Totais(SomaGrupo(linhas, Criancas), SomaGrupo(linhas, Pea), SomaGrupo(linhas, Idosos)))
    ensures r.Success? ==> r.value.populacaoTotal == SomaClassificada(linhas)
    ensures r.Success? && SomaGrupo(linhas, Pea) <= 0 ==> r.value.criancasPea == 0.0 && r.value.idososPea == 0.0
  {
    AcumularFailure(linhas);
    AcumularSums(linhas);
  }

  /** The loop over the first `i + 1` rows is the loop over the first `i` followed by one step on row `i`. */
  lemma AcumularPasso(linhas: seq<LinhaSidra>, i: nat)
    requires i < |linhas|
    ensures Acumular(linhas[..i + 1]) ==
      match Acumular(linhas[..i])
      case Failure(e) => Failure(e)
      case Success(t) => Passo(t, linhas[i])
  {
    assert linhas[..i + 1][..i] == linhas[..i];
  }

  /** A failure on a prefix of the rows is the failure of all of them. */
  lemma {:induction false} AcumularPrefix(linhas: seq<LinhaSidra>, n: nat)
    requires n <= |linhas| && Acumular(linhas[..n]).Failure?
    ensures Acumular(linhas) == Acumular(linhas[..n])
    decreases |linhas| - n
  {
    if n < |linhas| {
      assert linhas[..n + 1][..n] == linhas[..n];
      AcumularPrefix(linhas, n + 1);
    } else {
      assert linhas[..n] == linhas;
    }
  }

  /** The loop raises exactly when some counted row has a non-integer value or no age-group name, and the first such row decides the exception. */
  lemma {:induction false} AcumularFailure(linhas: seq<LinhaSidra>)
    ensures Acumular(linhas).Failure? <==> exists i :: 0 <= i < |linhas| && FalhaDaLinha(linhas[i]).Some?
    ensures Acumular(linhas).Failure? ==> exists i :: PrimeiraFalha(linhas, i) && FalhaDaLinha(linhas[i]) == Some(Acumular(linhas).error)
  {
    if linhas != [] {
      var n := |linhas| - 1;
      var prefix := linhas[..n];
      AcumularFailure(prefix);
      AcumularFailureStep(linhas);
    }
  }

  /** The last row of `linhas` either inherits the prefix's failure or decides the outcome itself. */
  lemma AcumularFailureStep(linhas: seq<LinhaSidra>)
    requires linhas != []
    requires var prefix := linhas[..|linhas| - 1];
      (Acumular(prefix).Failure? <==> exists i :: 0 <= i < |prefix| && FalhaDaLinha(prefix[i]).Some?) &&
      (Acumular(prefix).Failure? ==> exists i :: PrimeiraFalha(prefix, i) && FalhaDaLinha(prefix[i]) == Some(Acumular(prefix).error))
    ensures Acumular(linhas).Failure? <==> exists i :: 0 <= i < |linhas| && FalhaDaLinha(linhas[i]).Some?
    ensures Acumular(linhas).Failure? ==> exists i :: PrimeiraFalha(linhas, i) && FalhaDaLinha(linhas[i]) == Some(Acumular(linhas).error)
  {
    var n := |linhas| - 1;
    var prefix := linhas[..n];
    assert forall i :: 0 <= i < n ==> prefix[i] == linhas[i];
    if Acumular(prefix).Failure? {
      var i :| PrimeiraFalha(prefix, i) && FalhaDaLinha(prefix[i]) == Some(Acumular(prefix).error);
      assert linhas[i] == prefix[i];
      assert PrimeiraFalha(linhas, i);
    }
  }

  lemma {:induction false} SomaGrupoSnoc(linhas: seq<LinhaSidra>, g: Grupo)
    requires linhas != []
    ensures var l := linhas[|linhas| - 1];
      SomaGrupo(linhas, g) == SomaGrupo(linhas[..|linhas| - 1], g) +
        (if Contabilizada(l) && Valor(l).Success? && l.d4n.Some? && GrupoSidra(l.d4n.value) == Some(g) then Valor(l).value else 0)
    ensures var l := linhas[|linhas| - 1];
      SomaClassificada(linhas) == SomaClassificada(linhas[..|linhas| - 1]) +
        (if Contabilizada(l) && Valor(l).Success? && l.d4n.Some? && GrupoSidra(l.d4n.value).Some? then Valor(l).value else 0)
  {
    if |linhas| > 1 {
      assert linhas[1..][..|linhas| - 2] == linhas[..|linhas| - 1][1..];
      SomaGrupoSnoc(linhas[1..], g);
    }
  }

  /**
   * Only 'Total'/'Total' rows contribute, each adds its value to the one group
   * its name selects (children before PEA before elderly), and the three counters
   * together hold the sum of every classified row.
   */
  lemma {:induction false} AcumularSums(linhas: seq<LinhaSidra>)
    ensures Acumular(linhas).Success? ==>
      Acumular(linhas).value == Totais(SomaGrupo(linhas, Criancas), SomaGrupo(linhas, Pea), SomaGrupo(linhas, Idosos))
    ensures Acumular(linhas).Success? ==>
      SomaGrupo(linhas, Criancas) + SomaGrupo(linhas, Pea) + SomaGrupo(linhas, Idosos) == SomaClassificada(linhas)
  {
    if linhas != [] {
      AcumularSums(linhas[..|linhas| - 1]);
      SomaGrupoSnoc(linhas, Criancas);
      SomaGrupoSnoc(linhas, Pea);
      SomaGrupoSnoc(linhas, Idosos);
    }
  }

  // ---------------------------------------------------------------------------
  // estruturar_estabelecimentos_reais
  // ---------------------------------------------------------------------------

  /** A raw establishment row; `None` is a missing key. */
  datatype Estabelecimento = Estabelecimento(
    tipo: Option<string>,
    nome: Option<string>,
    leitosTotal: Option<Num>,
    naturezaJuridica: Option<string>,
    servicos: Option<string>)

  datatype Hospital = Hospital(nome: string, leitos: int, natureza: string)

  datatype UnidadeRadiologia = UnidadeRadiologia(nome: string, servicos: string, tipo: string)

  datatype Saude = Saude(top10Hospitais: seq<Hospital>, top10Radiologia: seq<UnidadeRadiologia>)

  /** Length of each list. */
  const TOP: nat := 10

  /** `est.get('tipo_estabelecimento') == 'HOSPITAL'` */
  predicate EhHospital(e: Estabelecimento) {
    e.tipo == Some("HOSPITAL")
  }

  /** `'RADIOLOGIA' in est.get('servicos', '').upper()` */
  predicate TemRadiologia(e: Estabelecimento) {
    Occurs("RADIOLOGIA", Upper(e.servicos.GetOr("")))
  }

  /** `int(x.get('leitos_total', 0))`: the integer, or the exception it raises. */
  function Leitos(e: Estabelecimento): Result<int, Falha> {
    match e.leitosTotal
    case None => Success(0)
    case Some(Int(n)) => Success(n)
    case Some(NotInt) => Failure(ValueError)
    case Some(Null) => Failure(TypeError)
  }

  /** The bed count used as sort key and in the output (0 for a value that would have raised before this point). */
  function ChaveLeitos(e: Estabelecimento): int {
    if Leitos(e).Success? then Leitos(e).value else 0
  }

  /** "Strictly before" for `sort(key=leitos, reverse=True)`: more beds first. */
  function MaisLeitos(a: Estabelecimento, b: Estabelecimento): bool {
    ChaveLeitos(a) > ChaveLeitos(b)
  }

  /** The radiology sort key `x.get('nome', '')`. */
  function ChaveNome(e: Estabelecimento): string {
    e.nome.GetOr("")
  }

  /** "Strictly before" for `sort(key=nome)`: smaller name first. */
  function NomeAntes(a: Estabelecimento, b: Estabelecimento): bool {
    Less(ChaveNome(a), ChaveNome(b))
  }

  function ProjetarHospital(e: Estabelecimento): Hospital {
    Hospital(e.nome.GetOr("Hospital Desconhecido"), ChaveLeitos(e), e.naturezaJuridica.GetOr("Desconhecida"))
  }

  function ProjetarRadiologia(e: Estabelecimento): UnidadeRadiologia {
    UnidadeRadiologia(e.nome.GetOr("Unidade Desconhecida"), e.servicos.GetOr("Não Informado"), e.tipo.GetOr("Desconhecido"))
  }

  /** Each field of a projected entry is the row's own, or its default when the key is missing. */
  lemma ProjecoesPadrao(e: Estabelecimento)
    ensures var h := ProjetarHospital(e);
      h.nome == (if e.nome.Some? then e.nome.value else "Hospital Desconhecido") &&
      (e.leitosTotal.None? ==> h.leitos == 0) &&
      (Leitos(e).Success? ==> h.leitos == Leitos(e).value) &&
      h.natureza == (if e.naturezaJuridica.Some? then e.naturezaJuridica.value else "Desconhecida")
    ensures var u := ProjetarRadiologia(e);
      u.nome == (if e.nome.Some? then e.nome.value else "Unidade Desconhecida") &&
      u.servicos == (if e.servicos.Some? then e.servicos.value else "Não Informado") &&
      u.tipo == (if e.tipo.Some? then e.tipo.value else "Desconhecido")
  {
  }

  /** The hospital rows after the in-place stable sort by beds, descending. */
  function HospitaisOrdenados(raw: seq<Estabelecimento>): seq<Estabelecimento> {
    Sorting.Sort(Hospitais(raw), MaisLeitos)
  }

  /** The radiology rows after the in-place stable sort by name. */
  function RadiologiaOrdenada(raw: seq<Estabelecimento>): seq<Estabelecimento> {
    Sorting.Sort(Sorting.Filter(raw, TemRadiologia), NomeAntes)
  }

  function TopHospitais(raw: seq<Estabelecimento>): (r: seq<Hospital>)
    ensures |r| <= TOP && |r| <= |raw|
  {
    var top := Sorting.Take(HospitaisOrdenados(raw), TOP);
    seq(|top|, k requires 0 <= k < |top| => ProjetarHospital(top[k]))
  }

  function TopRadiologia(raw: seq<Estabelecimento>): (r: seq<UnidadeRadiologia>)
    ensures |r| <= TOP && |r| <= |raw|
  {
    var top := Sorting.Take(RadiologiaOrdenada(raw), TOP);
    seq(|top|, k requires 0 <= k < |top| => ProjetarRadiologia(top[k]))
  }

  /** The hospital rows, in list order. */
  function Hospitais(raw: seq<Estabelecimento>): seq<Estabelecimento> {
    Sorting.Filter(raw, EhHospital)
  }

  /**
   * The hospital at position `k` of `hs` is the first whose bed count makes
   * `int(...)` raise: the sort computes its keys in list order.
   */
  predicate PrimeiroSemLeitos(hs: seq<Estabelecimento>, k: int) {
    0 <= k < |hs| && Leitos(hs[k]).Failure? &&
    forall m :: 0 <= m < k ==> Leitos(hs[m]).Success?
  }

  /**
   * `estruturar_estabelecimentos_reais`: raises when some hospital row's bed
   * count does not convert to an integer (the sort key computation fails), with
   * the exception of the first such hospital in list order; otherwise the
   * top-10 hospitals and the top-10 radiology units.
   */
  method EstruturarEstabelecimentosReais(raw: seq<Estabelecimento>) returns (r: Result<Saude, Falha>)
    ensures r.Failure? <==> exists i :: 0 <= i < |raw| && EhHospital(raw[i]) && Leitos(raw[i]).Failure?
    ensures r.Failure? ==> exists k :: PrimeiroSemLeitos(Hospitais(raw), k) && r.error == Leitos(Hospitais(raw)[k]).error
    ensures r.Success? ==> r.value == Saude(TopHospitais(raw), TopRadiologia(raw))
  {
    var hospitais: seq<Hospital> := [];
    var radiologia: seq<UnidadeRadiologia> := [];

    var hospitaisFiltrados := Hospitais(raw);
    var k := 0;
    while k < |hospitaisFiltrados|
      invariant 0 <= k <= |hospitaisFiltrados|
      invariant forall m :: 0 <= m < k ==> Leitos(hospitaisFiltrados[m]).Success?
    {
      if Leitos(hospitaisFiltrados[k]).Failure? {
        var e := hospitaisFiltrados[k];
        assert e in raw;
        r := Failure(Leitos(e).error);
        assert PrimeiroSemLeitos(hospitaisFiltrados, k) && r.error == Leitos(hospitaisFiltrados[k]).error;
        return;
      }
      k := k + 1;
    }
    forall i | 0 <= i < |raw| && EhHospital(raw[i]) ensures Leitos(raw[i]).Success? {
      assert raw[i] in hospitaisFiltrados;
    }
    hospitaisFiltrados := Sorting.Sort(hospitaisFiltrados, MaisLeitos);
    var topH := Sorting.Take(hospitaisFiltrados, TOP);
    k := 0;
    while k < |topH|
      invariant 0 <= k <= |topH|
      invariant hospitais == TopHospitais(raw)[..k]
    {
      hospitais := hospitais + [ProjetarHospital(topH[k])];
      k := k + 1;
    }

    var radiologiaFiltrada := Sorting.Filter(raw, TemRadiologia);
    radiologiaFiltrada := Sorting.Sort(radiologiaFiltrada, NomeAntes);
    var topR := Sorting.Take(radiologiaFiltrada, TOP);
    k := 0;
    while k < |topR|
      invariant 0 <= k <= |topR|
      invariant radiologia == TopRadiologia(raw)[..k]
    {
      radiologia := radiologia + [ProjetarRadiologia(topR[k])];
      k := k + 1;
    }
    assert hospitais == TopHospitais(raw);
    assert radiologia == TopRadiologia(raw);
    r := Success(Saude(hospitais, radiologia));
  }

  /** The hospitals in `s` with exactly `n` beds, in order. */
  function ComLeitos(s: seq<Estabelecimento>, n: int): seq<Estabelecimento> {
    if s == [] then [] else (if ChaveLeitos(s[0]) == n then [s[0]] else []) + ComLeitos(s[1..], n)
  }

  lemma {:induction false} ClassIsSameBeds(s: seq<Estabelecimento>, e: Estabelecimento)
    ensures Sorting.Class(s, MaisLeitos, e) == ComLeitos(s, ChaveLeitos(e))
  {
    if s != [] {
      ClassIsSameBeds(s[1..], e);
    }
  }

  lemma MaisLeitosIsStrictWeakOrder()
    ensures Sorting.StrictWeakOrder(MaisLeitos)
  {
  }

  lemma NomeAntesIsStrictWeakOrder()
    ensures Sorting.StrictWeakOrder(NomeAntes)
  {
    LessIsStrictWeakOrder();
    forall a, b, c | NomeAntes(a, c) ensures NomeAntes(a, b) || NomeAntes(b, c) {
      assert Less(ChaveNome(a), ChaveNome(c));
    }
  }

  /**
   * The hospital list: at most 10 entries, one per hospital row (the first 10 of
   * the sorted hospitals, projected with their defaults), in non-increasing
   * order of beds; no hospital left out has more beds than any listed; and
   * hospitals with equal beds keep their input order (stable sort).
   */
  lemma TopHospitaisProperties(raw: seq<Estabelecimento>)
    ensures var top := TopHospitais(raw); var ord := HospitaisOrdenados(raw);
      |top| == (if |Hospitais(raw)| < TOP then |Hospitais(raw)| else TOP) &&
      multiset(ord) == multiset(Hospitais(raw)) &&
      (forall k :: 0 <= k < |top| ==> top[k] == ProjetarHospital(ord[k]) && ord[k] in raw && EhHospital(ord[k])) &&
      (forall i, j :: 0 <= i < j < |top| ==> top[i].leitos >= top[j].leitos) &&
      (forall i, j :: 0 <= i < |top| && TOP <= j < |ord| ==> ChaveLeitos(ord[j]) <= top[i].leitos)
    ensures forall n :: ComLeitos(HospitaisOrdenados(raw), n) == ComLeitos(Hospitais(raw), n)
  {
    var f := Hospitais(raw);
    var ord := HospitaisOrdenados(raw);
    MaisLeitosIsStrictWeakOrder();
    Sorting.SortSorted(f, MaisLeitos);
    Sorting.SortPermutation(f, MaisLeitos);
    forall n ensures ComLeitos(ord, n) == ComLeitos(f, n) {
      var e := Estabelecimento(None, None, Some(Int(n)), None, None);
      Sorting.SortStable(f, MaisLeitos, e);
      ClassIsSameBeds(ord, e);
      ClassIsSameBeds(f, e);
    }
  }

  /**
   * The radiology list: at most 10 entries, each the projection of a row whose
   * upper-cased services mention RADIOLOGIA, whose `servicos` is that row's own
   * (the 'Não Informado' default never applies), taken from the rows sorted by
   * name ascending (a missing name sorting as the empty string).
   */
  lemma TopRadiologiaProperties(raw: seq<Estabelecimento>)
    ensures var top := TopRadiologia(raw); var ord := RadiologiaOrdenada(raw);
      |top| == (if |Sorting.Filter(raw, TemRadiologia)| < TOP then |Sorting.Filter(raw, TemRadiologia)| else TOP) &&
      multiset(ord) == multiset(Sorting.Filter(raw, TemRadiologia)) &&
      (forall k :: 0 <= k < |top| ==>
        top[k] == ProjetarRadiologia(ord[k]) && ord[k] in raw && TemRadiologia(ord[k]) &&
        ord[k].servicos.Some? && top[k].servicos == ord[k].servicos.value) &&
      (forall i, j :: 0 <= i < j < |ord| ==> !Less(ChaveNome(ord[j]), ChaveNome(ord[i])))
  {
    var f := Sorting.Filter(raw, TemRadiologia);
    NomeAntesIsStrictWeakOrder();
    Sorting.SortSorted(f, NomeAntes);
    Sorting.SortPermutation(f, NomeAntes);
  }

  // ---------------------------------------------------------------------------
  // estruturar_dados_educacao_reais
  // ---------------------------------------------------------------------------

  /** A JSON scalar from the education payload: null, an integer, any other number, or text. */
  datatype Campo = Nulo | Inteiro(i: int) | Numero(x: real) | Texto(s: string)

  datatype Educacao = Educacao(enemMedio: Campo, idebAnosIniciais: Campo, taxaAnalfabetismo: Option<real>, escolaridadeMedia: Campo)

  /** `estruturar_dados_educacao_reais`: three lookups defaulting to the integer 0, and the illiteracy rate passed through. */
  function EstruturarDadosEducacaoReais(raw: map<string, Campo>, analfabetismo: Option<real>): (r: Educacao)
    ensures r.taxaAnalfabetismo == analfabetismo
    ensures "enem_medio" in raw ==> r.enemMedio == raw["enem_medio"]
    ensures "enem_medio" !in raw ==> r.enemMedio == Inteiro(0)
    ensures "ideb_anos_iniciais" in raw ==> r.idebAnosIniciais == raw["ideb_anos_iniciais"]
    ensures "ideb_anos_iniciais" !in raw ==> r.idebAnosIniciais == Inteiro(0)
    ensures "escolaridade_media" in raw ==> r.escolaridadeMedia == raw["escolaridade_media"]
    ensures "escolaridade_media" !in raw ==> r.escolaridadeMedia == Inteiro(0)
  {
    var enemMedio := if "enem_medio" in raw then raw["enem_medio"] else Inteiro(0);
    var idebAnosIniciais := if "ideb_anos_iniciais" in raw then raw["ideb_anos_iniciais"] else Inteiro(0);
    Educacao(enemMedio, idebAnosIniciais, analfabetismo,
             if "escolaridade_media" in raw then raw["escolaridade_media"] else Inteiro(0))
  }
}
