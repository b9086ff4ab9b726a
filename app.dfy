/**
 * The browser client: grouping the city list into per-state buckets, sorting
 * each bucket by name, filling the state select with the sorted bucket keys,
 * the enable/disable rules of the state select, city select and search
 * button, and the pairing of the age-pyramid entries into table rows.
 *
 * The page state the handlers update lives in the class `Painel`; the DOM
 * itself, `fetch` and the rendering of results are not modelled. The
 * `localeCompare` order is an abstract "strictly before" relation `collate`
 * on names; the default sort of the state keys is code-point order `Less`.
 */
module App {
  import opened Wrappers
  import opened Text
  import Sorting
  import GenerateMockData

  /** A city of the `/api/v1/cities` list. */
  datatype Cidade = Cidade(ibge: string, nome: string, uf: string)

  /** An `<option>` element: its value and its text. */
  datatype Opcao = Opcao(valor: string, texto: string)

  const PLACEHOLDER_MUNICIPIO: Opcao := Opcao("", "-- Selecione um município --")
  const MENSAGEM_SEM_MUNICIPIO: string := "Por favor, selecione um município."
  const ROTA_MERCADO: string := "/api/v1/market-intelligence/"

  // ---------------------------------------------------------------------------
  // Grouping by state
  // ---------------------------------------------------------------------------

  /** The bucket of `uf`, empty when the key is absent. */
  function Balde(m: map<string, seq<Cidade>>, uf: string): seq<Cidade> {
    if uf in m then m[uf] else []
  }

  /** The cities of `cs` whose state is `uf`, in input order. */
  function DoEstado(cs: seq<Cidade>, uf: string): seq<Cidade> {
    if cs == [] then []
    else DoEstado(cs[..|cs| - 1], uf) + (if cs[|cs| - 1].uf == uf then [cs[|cs| - 1]] else [])
  }

  /** The buckets after pushing every city of `cs`, in order, into the bucket of its state. */
  function Agrupar(m: map<string, seq<Cidade>>, cs: seq<Cidade>): (r: map<string, seq<Cidade>>)
    ensures m.Keys <= r.Keys
    ensures forall i :: 0 <= i < |cs| ==> cs[i].uf in r
  {
    if cs == [] then m
    else
      var m' := Agrupar(m, cs[..|cs| - 1]);
      var c := cs[|cs| - 1];
      m'[c.uf := Balde(m', c.uf) + [c]]
  }

  /** The bucket keys in creation order (the order of `Object.keys`). */
  function NovasChaves(ks: seq<string>, cs: seq<Cidade>): seq<string> {
    if cs == [] then ks
    else
      var k' := NovasChaves(ks, cs[..|cs| - 1]);
      var u := cs[|cs| - 1].uf;
      if u in k' then k' else k' + [u]
  }

  predicate Distintas(ks: seq<string>) {
    forall i, j :: 0 <= i < j < |ks| ==> ks[i] != ks[j]
  }

  /** `ks` lists the keys of `m`, each once. */
  ghost predicate Indexa(m: map<string, seq<Cidade>>, ks: seq<string>) {
    Distintas(ks) && forall k :: k in m <==> k in ks
  }

  /** The sum of the bucket sizes over the keys `ks`. */
  function Tamanhos(m: map<string, seq<Cidade>>, ks: seq<string>): nat {
    if ks == [] then 0 else Tamanhos(m, ks[..|ks| - 1]) + |Balde(m, ks[|ks| - 1])|
  }

  lemma {:induction false} DoEstadoMembers(cs: seq<Cidade>, uf: string)
    ensures forall c :: c in DoEstado(cs, uf) <==> c in cs && c.uf == uf
  {
    if cs != [] {
      DoEstadoMembers(cs[..|cs| - 1], uf);
      assert cs == cs[..|cs| - 1] + [cs[|cs| - 1]];
    }
  }

  /**
   * Grouping appends to each bucket exactly the cities of that state, in input
   * order, and creates a key exactly for the states that occur.
   */
  lemma {:induction false} AgruparBaldes(m: map<string, seq<Cidade>>, cs: seq<Cidade>)
    ensures forall uf :: Balde(Agrupar(m, cs), uf) == Balde(m, uf) + DoEstado(cs, uf)
    ensures forall uf :: uf in Agrupar(m, cs) <==> uf in m || DoEstado(cs, uf) != []
  {
    if cs == [] {
      forall uf ensures Balde(m, uf) + DoEstado(cs, uf) == Balde(m, uf) {
        assert DoEstado(cs, uf) == [];
      }
    } else {
      AgruparBaldes(m, cs[..|cs| - 1]);
    }
  }

  /** Grouping keeps the key list in step with the map: distinct, and exactly the keys. */
  lemma {:induction false} NovasChavesIndexa(m: map<string, seq<Cidade>>, ks: seq<string>, cs: seq<Cidade>)
    requires Indexa(m, ks)
    ensures Indexa(Agrupar(m, cs), NovasChaves(ks, cs))
  {
    if cs != [] {
      NovasChavesIndexa(m, ks, cs[..|cs| - 1]);
    }
  }

  lemma {:induction false} TamanhosUpdate(m: map<string, seq<Cidade>>, ks: seq<string>, u: string, b: seq<Cidade>)
    requires Distintas(ks)
    ensures Tamanhos(m[u := b], ks) + (if u in ks then |Balde(m, u)| else 0) ==
            Tamanhos(m, ks) + (if u in ks then |b| else 0)
  {
    if ks != [] {
      var init := ks[..|ks| - 1];
      TamanhosUpdate(m, init, u, b);
      assert u in ks <==> u in init || u == ks[|ks| - 1];
      if u == ks[|ks| - 1] {
        assert u !in init;
      }
    }
  }

  lemma TamanhosAcrescenta(m: map<string, seq<Cidade>>, ks: seq<string>, c: Cidade)
    requires Distintas(ks) && c.uf in ks
    ensures Tamanhos(m[c.uf := Balde(m, c.uf) + [c]], ks) == Tamanhos(m, ks) + 1
  {
    TamanhosUpdate(m, ks, c.uf, Balde(m, c.uf) + [c]);
  }

  lemma TamanhosNovaChave(m: map<string, seq<Cidade>>, ks: seq<string>, c: Cidade)
    requires Distintas(ks) && c.uf !in ks
    ensures Tamanhos(m[c.uf := [c]], ks + [c.uf]) == Tamanhos(m, ks) + 1
  {
    assert (ks + [c.uf])[..|ks|] == ks;
    TamanhosUpdate(m, ks, c.uf, [c]);
  }

  /** Pushing one city into its bucket adds exactly one to the bucket sizes. */
  lemma PassoTamanhos(m: map<string, seq<Cidade>>, ks: seq<string>, c: Cidade)
    requires Indexa(m, ks)
    ensures Tamanhos(m[c.uf := Balde(m, c.uf) + [c]], if c.uf in ks then ks else ks + [c.uf]) == Tamanhos(m, ks) + 1
  {
    if c.uf in ks {
      TamanhosAcrescenta(m, ks, c);
    } else {
      assert Balde(m, c.uf) + [c] == [c];
      TamanhosNovaChave(m, ks, c);
    }
  }

  /** No city is dropped or duplicated: the bucket sizes grow by exactly the number of cities pushed. */
  lemma {:induction false} AgruparTamanhos(m: map<string, seq<Cidade>>, ks: seq<string>, cs: seq<Cidade>)
    requires Indexa(m, ks)
    ensures Tamanhos(Agrupar(m, cs), NovasChaves(ks, cs)) == Tamanhos(m, ks) + |cs|
  {
    if cs != [] {
      var init := cs[..|cs| - 1];
      AgruparTamanhos(m, ks, init);
      NovasChavesIndexa(m, ks, init);
      PassoTamanhos(Agrupar(m, init), NovasChaves(ks, init), cs[|cs| - 1]);
    }
  }

  /**
   * Grouping a city list from scratch: each city lands in the bucket of its
   * state, each bucket holds exactly that state's cities in input order, the
   * keys are the states that occur, each listed once, and the bucket sizes
   * sum to the number of cities.
   */
  lemma AgruparDoZero(cs: seq<Cidade>)
    ensures var m := Agrupar(map[], cs);
      Indexa(m, NovasChaves([], cs)) &&
      (forall uf :: uf in m ==> m[uf] == DoEstado(cs, uf)) &&
      (forall c :: c in cs ==> c.uf in m && c in m[c.uf]) &&
      (forall uf :: uf in m <==> exists c :: c in cs && c.uf == uf) &&
      Tamanhos(m, NovasChaves([], cs)) == |cs|
  {
    var m := Agrupar(map[], cs);
    AgruparBaldes(map[], cs);
    NovasChavesIndexa(map[], [], cs);
    AgruparTamanhos(map[], [], cs);
    forall uf ensures Balde(m, uf) == DoEstado(cs, uf) {
      assert Balde(map[], uf) == [];
    }
    forall uf ensures uf in m <==> exists c :: c in cs && c.uf == uf {
      DoEstadoMembers(cs, uf);
      if uf in m {
        assert DoEstado(cs, uf)[0] in DoEstado(cs, uf);
      }
    }
    forall c | c in cs ensures c.uf in m && c in m[c.uf] {
      DoEstadoMembers(cs, c.uf);
      assert Balde(m, c.uf) == DoEstado(cs, c.uf);
    }
  }

  // ---------------------------------------------------------------------------
  // Sorting the buckets and the state keys
  // ---------------------------------------------------------------------------

  /** `(a, b) => a.nome.localeCompare(b.nome)` as a "strictly before" relation. */
  function PorNome(collate: (string, string) -> bool): (Cidade, Cidade) -> bool {
    (a: Cidade, b: Cidade) => collate(a.nome, b.nome)
  }

  /** Every bucket sorted in place by name. */
  function Ordenar(m: map<string, seq<Cidade>>, collate: (string, string) -> bool): (r: map<string, seq<Cidade>>)
    ensures r.Keys == m.Keys
    ensures forall uf :: uf in r ==> multiset(r[uf]) == multiset(m[uf])
  {
    map uf | uf in m :: Sorting.Sort(m[uf], PorNome(collate))
  }

  /** After sorting the buckets of the first `i` keys of `ks`: those are sorted, the others untouched. */
  ghost predicate OrdenadosAte(m: map<string, seq<Cidade>>, b: map<string, seq<Cidade>>, ks: seq<string>, i: nat,
                               collate: (string, string) -> bool)
    requires i <= |ks|
  {
    b.Keys == m.Keys &&
    forall uf :: uf in b ==> b[uf] == if uf in ks[..i] then Sorting.Sort(m[uf], PorNome(collate)) else m[uf]
  }

  /** Sorting the bucket of the next key extends the sorted prefix by that key. */
  lemma OrdenarPasso(m: map<string, seq<Cidade>>, b: map<string, seq<Cidade>>, ks: seq<string>, i: nat,
                     collate: (string, string) -> bool)
    requires Indexa(m, ks) && i < |ks|
    requires OrdenadosAte(m, b, ks, i, collate)
    ensures ks[i] in b
    ensures OrdenadosAte(m, b[ks[i] := Sorting.Sort(b[ks[i]], PorNome(collate))], ks, i + 1, collate)
  {
    assert ks[..i + 1] == ks[..i] + [ks[i]];
    assert ks[i] !in ks[..i];
  }

  /** A map whose every bucket, over a complete key list, has been sorted is `Ordenar` of the original. */
  lemma OrdenarCompleto(m: map<string, seq<Cidade>>, b: map<string, seq<Cidade>>, ks: seq<string>, collate: (string, string) -> bool)
    requires Indexa(m, ks) && OrdenadosAte(m, b, ks, |ks|, collate)
    ensures b == Ordenar(m, collate)
  {
    assert ks[..|ks|] == ks;
  }

  lemma PorNomeIsStrictWeakOrder(collate: (string, string) -> bool)
    requires Sorting.StrictWeakOrder(collate)
    ensures Sorting.StrictWeakOrder(PorNome(collate))
  {
    var lt := PorNome(collate);
    forall a, b | lt(a, b) ensures !lt(b, a) {
      assert collate(a.nome, b.nome);
    }
    forall a, b, c | lt(a, c) ensures lt(a, b) || lt(b, c) {
      assert collate(a.nome, c.nome);
      assert collate(a.nome, b.nome) || collate(b.nome, c.nome);
    }
  }

  /**
   * After the sort pass every bucket has the same keys as before, is ordered by
   * name, is a permutation of the cities pushed into it, and cities whose names
   * compare equal keep their input order.
   */
  lemma OrdenarBaldes(m: map<string, seq<Cidade>>, collate: (string, string) -> bool)
    requires Sorting.StrictWeakOrder(collate)
    ensures Ordenar(m, collate).Keys == m.Keys
    ensures forall uf :: uf in m ==>
      Sorting.Sorted(Ordenar(m, collate)[uf], PorNome(collate)) &&
      multiset(Ordenar(m, collate)[uf]) == multiset(m[uf]) &&
      forall e :: Sorting.Class(Ordenar(m, collate)[uf], PorNome(collate), e) == Sorting.Class(m[uf], PorNome(collate), e)
  {
    PorNomeIsStrictWeakOrder(collate);
    forall uf | uf in m
      ensures Sorting.Sorted(Ordenar(m, collate)[uf], PorNome(collate))
      ensures forall e :: Sorting.Class(Ordenar(m, collate)[uf], PorNome(collate), e) == Sorting.Class(m[uf], PorNome(collate), e)
    {
      Sorting.SortSorted(m[uf], PorNome(collate));
      forall e ensures Sorting.Class(Ordenar(m, collate)[uf], PorNome(collate), e) == Sorting.Class(m[uf], PorNome(collate), e) {
        Sorting.SortStable(m[uf], PorNome(collate), e);
      }
    }
  }

  lemma {:induction false} DistintasCount(s: seq<string>, x: string)
    requires Distintas(s)
    ensures multiset(s)[x] <= 1
  {
    if s != [] {
      DistintasCount(s[1..], x);
      assert s == [s[0]] + s[1..];
      if s[0] == x {
        assert x !in s[1..];
      }
    }
  }

  lemma DistintasPermutation(a: seq<string>, b: seq<string>)
    requires multiset(a) == multiset(b) && Distintas(b)
    ensures Distintas(a)
  {
    forall i, j | 0 <= i < j < |a| ensures a[i] != a[j] {
      if a[i] == a[j] {
        assert a == a[..j] + a[j..];
        assert a[i] in a[..j];
        assert a[j] in a[j..];
        assert multiset(a)[a[i]] == multiset(a[..j])[a[i]] + multiset(a[j..])[a[i]];
        DistintasCount(b, a[i]);
        assert false;
      }
    }
  }

  /** `Object.keys(estadosCidades).sort()`: the keys, each once, in strictly increasing order. */
  lemma EstadosOrdenados(ks: seq<string>)
    requires Distintas(ks)
    ensures var e := Sorting.Sort(ks, Less);
      |e| == |ks| &&
      (forall k :: k in e <==> k in ks) &&
      (forall i, j :: 0 <= i < j < |e| ==> Less(e[i], e[j]))
  {
    var e := Sorting.Sort(ks, Less);
    LessIsStrictWeakOrder();
    Sorting.SortSorted(ks, Less);
    Sorting.SortPermutation(ks, Less);
    DistintasPermutation(e, ks);
    forall i, j | 0 <= i < j < |e| ensures Less(e[i], e[j]) {
      LessTrichotomy(e[i], e[j]);
    }
  }

  /** The options of a city select filled from `cidades`: value the IBGE code, text the name. */
  function Opcoes(cidades: seq<Cidade>): (r: seq<Opcao>)
    ensures |r| == |cidades|
    ensures forall i :: 0 <= i < |r| ==> r[i].valor == cidades[i].ibge && r[i].texto == cidades[i].nome
  {
    seq(|cidades|, i requires 0 <= i < |cidades| => Opcao(cidades[i].ibge, cidades[i].nome))
  }

  // ---------------------------------------------------------------------------
  // The page state and its handlers
  // ---------------------------------------------------------------------------

  class Painel {
    /** The global `estadosCidades`, and its keys in creation order. */
    var estadosCidades: map<string, seq<Cidade>>
    var ufs: seq<string>
    /** The options appended to the state select and to the city select. */
    var opcoesEstado: seq<string>
    var opcoesMunicipio: seq<Opcao>
    var municipioDesabilitado: bool
    var buscarDesabilitado: bool
    /** The value of the city select. */
    var municipioValor: string
    /** The error box: its text and whether it is shown; whether the results box is shown. */
    var erro: string
    var erroVisivel: bool
    var resultadosVisivel: bool
    /** The market-intelligence URLs requested so far. */
    var requisicoes: seq<string>

    /** The keys list matches the map, and the search button is enabled only with a city selected. */
    ghost predicate Valid()
      reads this
    {
      Indexa(estadosCidades, ufs) && (!buscarDesabilitado ==> municipioValor != "")
    }

    constructor ()
      ensures Valid()
      ensures estadosCidades == map[] && ufs == [] && opcoesEstado == [] && opcoesMunicipio == [PLACEHOLDER_MUNICIPIO]
      ensures municipioDesabilitado && buscarDesabilitado && municipioValor == ""
      ensures !erroVisivel && !resultadosVisivel && requisicoes == []
    {
      estadosCidades := map[];
      ufs := [];
      opcoesEstado := [];
      opcoesMunicipio := [PLACEHOLDER_MUNICIPIO];
      municipioDesabilitado := true;
      buscarDesabilitado := true;
      municipioValor := "";
      erro := "";
      erroVisivel := false;
      resultadosVisivel := false;
      requisicoes := [];
    }

    /** The `forEach` that pushes every city into the bucket of its state, creating the bucket on first use. */
    method AgruparCidades(cs: seq<Cidade>)
      requires Valid()
      modifies this
      ensures Valid()
      ensures estadosCidades == Agrupar(old(estadosCidades), cs)
      ensures ufs == NovasChaves(old(ufs), cs)
      ensures opcoesEstado == old(opcoesEstado) && opcoesMunicipio == old(opcoesMunicipio)
      ensures municipioDesabilitado == old(municipioDesabilitado) && buscarDesabilitado == old(buscarDesabilitado)
      ensures municipioValor == old(municipioValor) && erro == old(erro) && erroVisivel == old(erroVisivel)
      ensures resultadosVisivel == old(resultadosVisivel) && requisicoes == old(requisicoes)
    {
      var baldes, chaves := estadosCidades, ufs;
      var i := 0;
      while i < |cs|
        invariant 0 <= i <= |cs|
        invariant baldes == Agrupar(estadosCidades, cs[..i])
        invariant chaves == NovasChaves(ufs, cs[..i])
        invariant Indexa(baldes, chaves)
        modifies {}
      {
        var c := cs[i];
        assert cs[..i + 1][..i] == cs[..i] && cs[..i + 1][i] == c;
        NovasChavesIndexa(estadosCidades, ufs, cs[..i + 1]);
        if c.uf !in baldes {
          baldes := baldes[c.uf := []];
          chaves := chaves + [c.uf];
        }
        baldes := baldes[c.uf := baldes[c.uf] + [c]];
        i := i + 1;
      }
      assert cs[..i] == cs;
      NovasChavesIndexa(estadosCidades, ufs, cs);
      estadosCidades, ufs := baldes, chaves;
    }

    /** The pass that sorts every bucket in place by name. */
    method OrdenarCidades(collate: (string, string) -> bool)
      requires Valid()
      modifies this
      ensures Valid()
      ensures estadosCidades == Ordenar(old(estadosCidades), collate)
      ensures ufs == old(ufs) && opcoesEstado == old(opcoesEstado) && opcoesMunicipio == old(opcoesMunicipio)
      ensures municipioDesabilitado == old(municipioDesabilitado) && buscarDesabilitado == old(buscarDesabilitado)
      ensures municipioValor == old(municipioValor) && erro == old(erro) && erroVisivel == old(erroVisivel)
      ensures resultadosVisivel == old(resultadosVisivel) && requisicoes == old(requisicoes)
    {
      var chaves := ufs;
      var baldes := estadosCidades;
      var i := 0;
      while i < |chaves|
        invariant 0 <= i <= |chaves|
        invariant OrdenadosAte(estadosCidades, baldes, chaves, i, collate)
        modifies {}
      {
        OrdenarPasso(estadosCidades, baldes, chaves, i, collate);
        baldes := baldes[chaves[i] := Sorting.Sort(baldes[chaves[i]], PorNome(collate))];
        i := i + 1;
      }
      OrdenarCompleto(estadosCidades, baldes, chaves, collate);
      estadosCidades := baldes;
    }

    /** `inicializarEstados`: appends the sorted keys to the state select. */
    method InicializarEstados()
      requires Valid()
      modifies this
      ensures Valid()
      ensures opcoesEstado == old(opcoesEstado) + Sorting.Sort(ufs, Less)
      ensures estadosCidades == old(estadosCidades) && ufs == old(ufs) && opcoesMunicipio == old(opcoesMunicipio)
      ensures municipioDesabilitado == old(municipioDesabilitado) && buscarDesabilitado == old(buscarDesabilitado)
      ensures municipioValor == old(municipioValor) && erro == old(erro) && erroVisivel == old(erroVisivel)
      ensures resultadosVisivel == old(resultadosVisivel) && requisicoes == old(requisicoes)
    {
      var estados := Sorting.Sort(ufs, Less);
      var i := 0;
      while i < |estados|
        invariant 0 <= i <= |estados|
        invariant opcoesEstado == old(opcoesEstado) + estados[..i]
        invariant estadosCidades == old(estadosCidades) && ufs == old(ufs) && opcoesMunicipio == old(opcoesMunicipio)
        invariant municipioDesabilitado == old(municipioDesabilitado) && buscarDesabilitado == old(buscarDesabilitado)
        invariant municipioValor == old(municipioValor) && erro == old(erro) && erroVisivel == old(erroVisivel)
        invariant resultadosVisivel == old(resultadosVisivel) && requisicoes == old(requisicoes)
      {
        assert estados[..i + 1] == estados[..i] + [estados[i]];
        opcoesEstado := opcoesEstado + [estados[i]];
        i := i + 1;
      }
      assert estados[..i] == estados;
    }

    /** `carregarCidades` once the city list has arrived: group, sort each bucket, fill the state select. */
    method CarregarCidades(dados: seq<Cidade>, collate: (string, string) -> bool)
      requires Valid()
      modifies this
      ensures Valid()
      ensures estadosCidades == Ordenar(Agrupar(old(estadosCidades), dados), collate)
      ensures ufs == NovasChaves(old(ufs), dados)
      ensures opcoesEstado == old(opcoesEstado) + Sorting.Sort(NovasChaves(old(ufs), dados), Less)
      ensures opcoesMunicipio == old(opcoesMunicipio)
      ensures municipioDesabilitado == old(municipioDesabilitado) && buscarDesabilitado == old(buscarDesabilitado)
      ensures municipioValor == old(municipioValor) && erro == old(erro) && erroVisivel == old(erroVisivel)
      ensures resultadosVisivel == old(resultadosVisivel) && requisicoes == old(requisicoes)
    {
      AgruparCidades(dados);
      OrdenarCidades(collate);
      InicializarEstados();
    }

    /**
     * The state select's change handler: resets the city select to its
     * placeholder, disables it exactly when no state is chosen, always disables
     * the search button, and lists the chosen state's cities in bucket order.
     * A state with no bucket makes the handler throw (`lancou`) after the reset.
     */
    method OnEstadoChange(valor: string) returns (lancou: bool)
      requires Valid()
      modifies this
      ensures Valid()
      ensures buscarDesabilitado
      ensures municipioDesabilitado <==> valor == ""
      ensures municipioValor == ""
      ensures lancou <==> valor != "" && valor !in estadosCidades
      ensures opcoesMunicipio == [PLACEHOLDER_MUNICIPIO] +
        (if valor != "" && valor in estadosCidades then Opcoes(estadosCidades[valor]) else [])
      ensures estadosCidades == old(estadosCidades) && ufs == old(ufs) && opcoesEstado == old(opcoesEstado)
      ensures erro == old(erro) && erroVisivel == old(erroVisivel)
      ensures resultadosVisivel == old(resultadosVisivel) && requisicoes == old(requisicoes)
    {
      opcoesMunicipio := [PLACEHOLDER_MUNICIPIO];
      municipioValor := "";
      municipioDesabilitado := valor == "";
      buscarDesabilitado := true;
      lancou := false;
      if valor != "" {
        if valor !in estadosCidades {
          lancou := true;
          return;
        }
        var cidades := estadosCidades[valor];
        var i := 0;
        while i < |cidades|
          invariant 0 <= i <= |cidades|
          invariant opcoesMunicipio == [PLACEHOLDER_MUNICIPIO] + Opcoes(cidades)[..i]
          invariant municipioValor == "" && buscarDesabilitado && !municipioDesabilitado
          invariant estadosCidades == old(estadosCidades) && ufs == old(ufs) && opcoesEstado == old(opcoesEstado)
          invariant erro == old(erro) && erroVisivel == old(erroVisivel)
          invariant resultadosVisivel == old(resultadosVisivel) && requisicoes == old(requisicoes)
        {
          assert Opcoes(cidades)[..i + 1] == Opcoes(cidades)[..i] + [Opcao(cidades[i].ibge, cidades[i].nome)];
          opcoesMunicipio := opcoesMunicipio + [Opcao(cidades[i].ibge, cidades[i].nome)];
          i := i + 1;
        }
        assert Opcoes(cidades)[..i] == Opcoes(cidades);
      }
    }

    /** The city select's change handler: the search button is enabled exactly when a city is chosen. */
    method OnMunicipioChange(valor: string)
      requires Valid()
      modifies this
      ensures Valid()
      ensures municipioValor == valor
      ensures buscarDesabilitado <==> valor == ""
      ensures estadosCidades == old(estadosCidades) && ufs == old(ufs) && opcoesEstado == old(opcoesEstado)
      ensures opcoesMunicipio == old(opcoesMunicipio) && municipioDesabilitado == old(municipioDesabilitado)
      ensures erro == old(erro) && erroVisivel == old(erroVisivel)
      ensures resultadosVisivel == old(resultadosVisivel) && requisicoes == old(requisicoes)
    {
      municipioValor := valor;
      buscarDesabilitado := valor == "";
    }

    /**
     * The search button's click handler, up to the request: with no city
     * selected it shows the error and requests nothing; otherwise it shows the
     * results box, hides the error box and requests the city's market data.
     */
    method OnBuscarClick()
      requires Valid()
      modifies this
      ensures Valid()
      ensures old(municipioValor) == "" ==>
        erro == MENSAGEM_SEM_MUNICIPIO && erroVisivel && !resultadosVisivel && requisicoes == old(requisicoes)
      ensures old(municipioValor) != "" ==>
        erro == old(erro) && !erroVisivel && resultadosVisivel &&
        requisicoes == old(requisicoes) + [ROTA_MERCADO + old(municipioValor)]
      ensures !old(buscarDesabilitado) ==> requisicoes == old(requisicoes) + [ROTA_MERCADO + old(municipioValor)]
      ensures estadosCidades == old(estadosCidades) && ufs == old(ufs) && opcoesEstado == old(opcoesEstado)
      ensures opcoesMunicipio == old(opcoesMunicipio) && municipioDesabilitado == old(municipioDesabilitado)
      ensures buscarDesabilitado == old(buscarDesabilitado) && municipioValor == old(municipioValor)
    {
      var ibgeCode := municipioValor;
      if ibgeCode == "" {
        erro := MENSAGEM_SEM_MUNICIPIO;
        erroVisivel := true;
        resultadosVisivel := false;
        return;
      }
      resultadosVisivel := true;
      erroVisivel := false;
      requisicoes := requisicoes + [ROTA_MERCADO + ibgeCode];
    }
  }

  // ---------------------------------------------------------------------------
  // Pyramid table rows
  // ---------------------------------------------------------------------------

  /** A row of the pyramid table: band label, men, and women (`None` renders as 'N/A'). */
  datatype Linha = Linha(faixa: string, homens: int, mulheres: Option<int>)

  /**
   * The `map`/`join` over `piramide_etaria`: one row per men's entry, the
   * women's count taken from the entry right after it ('N/A' when there is none).
   */
  function LinhasPiramide(p: seq<GenerateMockData.Entrada>): (r: seq<Linha>)
    ensures |r| == ContarHomens(p)
  {
    if p == [] then []
    else
      (if p[0].sexo == GenerateMockData.Homens
       then [Linha(p[0].idadeGrupo, p[0].populacao, if 1 < |p| then Some(p[1].populacao) else None)]
       else [])
      + LinhasPiramide(p[1..])
  }

  /** The number of men's entries. */
  function ContarHomens(p: seq<GenerateMockData.Entrada>): nat {
    if p == [] then 0 else (if p[0].sexo == GenerateMockData.Homens then 1 else 0) + ContarHomens(p[1..])
  }

  /** The row a men's entry `p[i]` renders: its band, its count, and the next entry's count. */
  function LinhaDoHomem(p: seq<GenerateMockData.Entrada>, i: nat): Linha
    requires i < |p|
  {
    Linha(p[i].idadeGrupo, p[i].populacao, if i + 1 < |p| then Some(p[i + 1].populacao) else None)
  }

  /**
   * The men's entry at position `i` renders the row numbered by the men's
   * entries before it.
   */
  lemma {:induction false} LinhaNaPosicao(p: seq<GenerateMockData.Entrada>, i: nat)
    requires i < |p| && p[i].sexo == GenerateMockData.Homens
    ensures ContarHomens(p[..i]) < |LinhasPiramide(p)|
    ensures LinhasPiramide(p)[ContarHomens(p[..i])] == LinhaDoHomem(p, i)
  {
    if i == 0 {
      assert p[..0] == [];
    } else {
      var t := p[1..];
      assert p[..i][1..] == t[..i - 1];
      LinhaNaPosicao(t, i - 1);
      assert LinhaDoHomem(t, i - 1) == LinhaDoHomem(p, i);
    }
  }

  /**
   * Every row comes from a men's entry: there are as many rows as men's
   * entries, the men's entries render their rows in order, each with the next
   * entry's count as women, and a row's women cell is 'N/A' only for a men's
   * entry that is the last entry of the pyramid.
   */
  lemma {:induction false} LinhasPorHomens(p: seq<GenerateMockData.Entrada>)
    ensures |LinhasPiramide(p)| == ContarHomens(p)
    ensures forall i: nat | i < |p| && p[i].sexo == GenerateMockData.Homens ::
      ContarHomens(p[..i]) < |LinhasPiramide(p)| && LinhasPiramide(p)[ContarHomens(p[..i])] == LinhaDoHomem(p, i)
    ensures forall r :: r in LinhasPiramide(p) && r.mulheres.None? ==>
      |p| > 0 && p[|p| - 1].sexo == GenerateMockData.Homens && r.faixa == p[|p| - 1].idadeGrupo
  {
    if p != [] {
      LinhasPorHomens(p[1..]);
    }
    forall i: nat | i < |p| && p[i].sexo == GenerateMockData.Homens
      ensures ContarHomens(p[..i]) < |LinhasPiramide(p)| && LinhasPiramide(p)[ContarHomens(p[..i])] == LinhaDoHomem(p, i)
    {
      LinhaNaPosicao(p, i);
    }
  }

  /** The row of band `f`: its label, its men's and its women's counts. */
  function LinhaDaFaixa(f: GenerateMockData.Faixa, total: int,
                        populacao: (int, GenerateMockData.Faixa, GenerateMockData.Sexo) -> int): Linha
  {
    Linha(GenerateMockData.Rotulo(f), populacao(total, f, GenerateMockData.Homens),
          Some(populacao(total, f, GenerateMockData.Mulheres)))
  }

  /** The expected table: one row per band, in order. */
  function LinhasDasFaixas(fs: seq<GenerateMockData.Faixa>, total: int,
                           populacao: (int, GenerateMockData.Faixa, GenerateMockData.Sexo) -> int): seq<Linha>
  {
    seq(|fs|, k requires 0 <= k < |fs| => LinhaDaFaixa(fs[k], total, populacao))
  }

  /** On a generated pyramid the rows are the bands in order, each with both counts. */
  lemma {:induction false} LinhasDePiramideDe(fs: seq<GenerateMockData.Faixa>, total: int,
                                             populacao: (int, GenerateMockData.Faixa, GenerateMockData.Sexo) -> int)
    ensures LinhasPiramide(GenerateMockData.PiramideDe(fs, total, populacao)) == LinhasDasFaixas(fs, total, populacao)
  {
    if fs != [] {
      LinhasDePiramideDe(fs[1..], total, populacao);
      LinhasDaPrimeiraFaixa(fs, total, populacao);
      LinhasDasFaixasCons(fs, total, populacao);
    } else {
      assert LinhasDasFaixas(fs, total, populacao) == [];
    }
  }

  lemma LinhasDasFaixasCons(fs: seq<GenerateMockData.Faixa>, total: int,
                            populacao: (int, GenerateMockData.Faixa, GenerateMockData.Sexo) -> int)
    requires fs != []
    ensures LinhasDasFaixas(fs, total, populacao) == [LinhaDaFaixa(fs[0], total, populacao)] + LinhasDasFaixas(fs[1..], total, populacao)
  {
    var l := LinhasDasFaixas(fs, total, populacao);
    var rest := LinhasDasFaixas(fs[1..], total, populacao);
    forall k | 1 <= k < |fs|
      ensures l[k] == rest[k - 1]
    {
      assert fs[1..][k - 1] == fs[k];
    }
  }

  /** The first band of a generated pyramid gives the first row, and the other bands the remaining rows. */
  lemma LinhasDaPrimeiraFaixa(fs: seq<GenerateMockData.Faixa>, total: int,
                              populacao: (int, GenerateMockData.Faixa, GenerateMockData.Sexo) -> int)
    requires fs != []
    ensures LinhasPiramide(GenerateMockData.PiramideDe(fs, total, populacao)) ==
      [LinhaDaFaixa(fs[0], total, populacao)] + LinhasPiramide(GenerateMockData.PiramideDe(fs[1..], total, populacao))
  {
    var p := GenerateMockData.PiramideDe(fs, total, populacao);
    assert p[1..][1..] == GenerateMockData.PiramideDe(fs[1..], total, populacao);
    assert LinhasPiramide(p[1..]) == LinhasPiramide(p[1..][1..]);
  }

  /** The table of a generated pyramid: 17 rows, row k being band k with its men's and women's counts. */
  lemma LinhasDaPiramideGerada(total: int, populacao: (int, GenerateMockData.Faixa, GenerateMockData.Sexo) -> int)
    ensures var l := LinhasPiramide(GenerateMockData.Piramide(total, populacao));
      |l| == |GenerateMockData.FAIXAS| == 17 &&
      forall k :: 0 <= k < 17 ==>
        l[k] == Linha(GenerateMockData.Rotulo(GenerateMockData.FAIXAS[k]),
                      populacao(total, GenerateMockData.FAIXAS[k], GenerateMockData.Homens),
                      Some(populacao(total, GenerateMockData.FAIXAS[k], GenerateMockData.Mulheres)))
  {
    LinhasDePiramideDe(GenerateMockData.FAIXAS, total, populacao);
  }
}
