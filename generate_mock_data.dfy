/**
 * The mock-data generator: the simulated age pyramid (17 five-year bands, a
 * men's entry then a women's entry per band), the dependency indices computed
 * from it by substring tests on the band labels, the "Acima"/"Abaixo"
 * benchmarking rule and the loop that emits one record per (state, city).
 *
 * Float-valued quantities stay abstract: the population of a band for a sex is
 * a parameter function (the source computes it with float multiplications and
 * truncation), the random draws of a city are a parameter, and benchmark
 * values are exact reals.
 */
module GenerateMockData {
  import opened Wrappers
  import opened Text
  import opened Demografia

  /** An age band "inicio-fim" or the open band "inicio+", with its share of the population. */
  datatype Faixa = Intervalo(inicio: nat, fim: nat, percentual: real) | Aberta(inicio: nat, percentual: real)

  datatype Sexo = Homens | Mulheres

  /** One entry of the pyramid: sex, age-band label and population. */
  datatype Entrada = Entrada(sexo: Sexo, idadeGrupo: string, populacao: int)

  /** The band's name: "0-4", ..., "80+". */
  function NomeFaixa(f: Faixa): string {
    match f
    case Intervalo(a, b, _) => NatToString(a) + "-" + NatToString(b)
    case Aberta(a, _) => NatToString(a) + "+"
  }

  /** The label written into each entry: "<faixa> anos". */
  function Rotulo(f: Faixa): string {
    NomeFaixa(f) + " anos"
  }

  /** The 17 bands of the pyramid, in order. */
  const FAIXAS: seq<Faixa> := [
    Intervalo(0, 4, 0.065), Intervalo(5, 9, 0.068), Intervalo(10, 14, 0.070),
    Intervalo(15, 19, 0.072), Intervalo(20, 24, 0.075), Intervalo(25, 29, 0.078),
    Intervalo(30, 34, 0.076), Intervalo(35, 39, 0.074), Intervalo(40, 44, 0.072),
    Intervalo(45, 49, 0.070), Intervalo(50, 54, 0.068), Intervalo(55, 59, 0.065),
    Intervalo(60, 64, 0.060), Intervalo(65, 69, 0.050), Intervalo(70, 74, 0.040),
    Intervalo(75, 79, 0.030), Aberta(80, 0.020)
  ]

  // ---------------------------------------------------------------------------
  // Classification of a label, exactly as the source tests it
  // ---------------------------------------------------------------------------

  /** `idade_grupo in ['0-4 anos', '5-9 anos', '10-14 anos']` */
  predicate EhCrianca(g: string) {
    g == "0-4 anos" || g == "5-9 anos" || g == "10-14 anos"
  }

  /** `any(f'{i}-' in idade_grupo for i in range(15, 60))` */
  predicate EhPea(g: string) {
    exists i: nat | 15 <= i < 60 :: Occurs(NatToString(i) + "-", g)
  }

  /** `any(f'{i}-' in idade_grupo or '80+' in idade_grupo for i in range(60, 80))` */
  predicate EhIdoso(g: string) {
    exists i: nat | 60 <= i < 80 :: Occurs(NatToString(i) + "-", g) || Occurs("80+", g)
  }

  predicate Pertence(g: string, grupo: Grupo) {
    match grupo
    case Criancas => EhCrianca(g)
    case Pea => EhPea(g)
    case Idosos => EhIdoso(g)
  }

  /** The group a band belongs to, by its lower bound. */
  function GrupoDaFaixa(f: Faixa): Grupo {
    if f.Aberta? || f.inicio >= 60 then Idosos
    else if f.inicio >= 15 then Pea
    else Criancas
  }

  // ---------------------------------------------------------------------------
  // Lemmas relating the substring tests to the integer bands
  // ---------------------------------------------------------------------------

  /** In the label of a closed band the only '-' is the one after the lower bound. */
  lemma DashPosition(f: Faixa, k: nat)
    requires f.Intervalo?
    requires k < |Rotulo(f)| && k != |NatToString(f.inicio)|
    ensures Rotulo(f)[k] != '-'
  {
    var a, b := NatToString(f.inicio), NatToString(f.fim);
    assert Rotulo(f) == a + "-" + b + " anos";
    if k < |a| {
      assert Rotulo(f)[k] == a[k];
    } else if k <= |a| + |b| {
      assert Rotulo(f)[k] == b[k - |a| - 1];
    } else {
      assert Rotulo(f)[k] == " anos"[k - |a| - |b| - 1];
    }
  }

  /** The label of an open band has no '-' and no '-' free band label has a "+". */
  lemma NoDashInOpen(f: Faixa, k: nat)
    requires f.Aberta? && k < |Rotulo(f)|
    ensures Rotulo(f)[k] != '-'
  {
    var a := NatToString(f.inicio);
    assert Rotulo(f) == a + "+" + " anos";
    if k < |a| {
      assert Rotulo(f)[k] == a[k];
    } else if k > |a| {
      assert Rotulo(f)[k] == " anos"[k - |a| - 1];
    }
  }

  lemma NoPlusInClosed(f: Faixa, k: nat)
    requires f.Intervalo? && k < |Rotulo(f)|
    ensures Rotulo(f)[k] != '+'
  {
    var a, b := NatToString(f.inicio), NatToString(f.fim);
    assert Rotulo(f) == a + "-" + b + " anos";
    if k < |a| {
      assert Rotulo(f)[k] == a[k];
    } else if |a| < k <= |a| + |b| {
      assert Rotulo(f)[k] == b[k - |a| - 1];
    } else if k > |a| + |b| {
      assert Rotulo(f)[k] == " anos"[k - |a| - |b| - 1];
    }
  }

  /** For a two-digit `i`, "i-" occurs in a closed band's label exactly when the band starts at `i`. */
  lemma MarkerInClosed(i: nat, f: Faixa)
    requires 10 <= i < 100
    requires f.Intervalo? && f.inicio < 100
    ensures Occurs(NatToString(i) + "-", Rotulo(f)) <==> f.inicio == i
  {
    var m := NatToString(i) + "-";
    var a := NatToString(f.inicio);
    var s := Rotulo(f);
    assert s == a + "-" + NatToString(f.fim) + " anos";
    if Occurs(m, s) {
      var j: nat :| j <= |s| && OccursAt(m, s, j);
      assert s[j + 2] == m[2] == '-';
      if j + 2 != |a| {
        DashPosition(f, j + 2);
      }
      assert j == 0 && |a| == 2;
      assert a == s[0..2] == m[0..2] == NatToString(i);
      TwoDigits(f.inicio, i);
    }
    if f.inicio == i {
      assert OccursAt(m, s, 0);
    }
  }

  /** No "i-" occurs in the open band's label. */
  lemma NoMarkerInOpen(p: string, f: Faixa)
    requires f.Aberta? && |p| > 0 && p[|p| - 1] == '-'
    ensures !Occurs(p, Rotulo(f))
  {
    if Occurs(p, Rotulo(f)) {
      var j: nat :| j <= |Rotulo(f)| && OccursAt(p, Rotulo(f), j);
      assert Rotulo(f)[j + |p| - 1] == '-';
      NoDashInOpen(f, j + |p| - 1);
    }
  }

  lemma NoPlusMarkerInClosed(f: Faixa)
    requires f.Intervalo?
    ensures !Occurs("80+", Rotulo(f))
  {
    if Occurs("80+", Rotulo(f)) {
      var j: nat :| j <= |Rotulo(f)| && OccursAt("80+", Rotulo(f), j);
      assert Rotulo(f)[j + 2] == '+';
      NoPlusInClosed(f, j + 2);
    }
  }

  /** Decimal rendering is injective. */
  lemma {:induction false} NatToStringInjective(m: nat, n: nat)
    requires NatToString(m) == NatToString(n)
    ensures m == n
  {
    var s := NatToString(m);
    if m >= 10 && n >= 10 {
      assert NatToString(m / 10) == s[..|s| - 1] == NatToString(n / 10);
      NatToStringInjective(m / 10, n / 10);
      assert DigitChar(m % 10) == s[|s| - 1] == DigitChar(n % 10);
    } else if m < 10 && n < 10 {
      assert DigitChar(m) == s[0] == DigitChar(n);
    }
  }

  /** Two closed bands with the same label have the same bounds. */
  lemma RotuloInjective(f: Faixa, g: Faixa)
    requires f.Intervalo? && g.Intervalo? && Rotulo(f) == Rotulo(g)
    ensures f.inicio == g.inicio && f.fim == g.fim
  {
    var a, b := NatToString(f.inicio), NatToString(f.fim);
    var c, d := NatToString(g.inicio), NatToString(g.fim);
    assert Rotulo(f)[|a|] == '-';
    if |a| != |c| {
      DashPosition(g, |a|);
    }
    assert |a| == |c|;
    assert a == Rotulo(f)[..|a|] == c;
    NatToStringInjective(f.inicio, g.inicio);
    assert b == Rotulo(f)[|a| + 1..|Rotulo(f)| - 5] == d;
    NatToStringInjective(f.fim, g.fim);
  }

  /** The children test accepts exactly the bands 0-4, 5-9 and 10-14. */
  lemma ChildTestOnClosed(f: Faixa)
    requires f.Intervalo?
    ensures EhCrianca(Rotulo(f)) <==> (f.inicio, f.fim) in {(0, 4), (5, 9), (10, 14)}
  {
    assert Rotulo(Intervalo(0, 4, 0.0)) == "0-4 anos";
    assert Rotulo(Intervalo(5, 9, 0.0)) == "5-9 anos";
    TwoDigits(10, 14);
    TwoDigits(14, 10);
    assert Rotulo(Intervalo(10, 14, 0.0)) == "10-14 anos";
    if Rotulo(f) == "0-4 anos" { RotuloInjective(f, Intervalo(0, 4, 0.0)); }
    if Rotulo(f) == "5-9 anos" { RotuloInjective(f, Intervalo(5, 9, 0.0)); }
    if Rotulo(f) == "10-14 anos" { RotuloInjective(f, Intervalo(10, 14, 0.0)); }
  }

  /** A closed band below 100 passes the PEA test exactly when it starts at 15..59, the elderly test exactly at 60..79. */
  lemma MarkerTestsOnClosed(f: Faixa)
    requires f.Intervalo? && f.inicio < 100
    ensures EhPea(Rotulo(f)) <==> 15 <= f.inicio < 60
    ensures EhIdoso(Rotulo(f)) <==> 60 <= f.inicio < 80
  {
    NoPlusMarkerInClosed(f);
    forall i: nat | 15 <= i < 80
      ensures Occurs(NatToString(i) + "-", Rotulo(f)) <==> f.inicio == i
    {
      MarkerInClosed(i, f);
    }
    if 15 <= f.inicio < 80 {
      assert Occurs(NatToString(f.inicio) + "-", Rotulo(f));
    }
  }

  /** The open band "80+" is elderly only. */
  lemma TestsOnOpen(f: Faixa)
    requires f == Aberta(80, f.percentual)
    ensures !EhCrianca(Rotulo(f)) && !EhPea(Rotulo(f)) && EhIdoso(Rotulo(f))
  {
    assert Rotulo(f) == "80+ anos";
    forall i: nat | 15 <= i < 60 ensures !Occurs(NatToString(i) + "-", Rotulo(f)) {
      NoMarkerInOpen(NatToString(i) + "-", f);
    }
    assert OccursAt("80+", Rotulo(f), 0);
    assert Occurs(NatToString(60) + "-", Rotulo(f)) || Occurs("80+", Rotulo(f));
  }

  /**
   * The three substring tests partition the 17 bands: each band's label passes
   * exactly the test of its group (children 0-4 to 10-14, PEA 15-19 to 55-59,
   * elderly 60-64 to 75-79 and 80+).
   */
  lemma BandsPartitioned(f: Faixa, g: Grupo)
    requires f in FAIXAS
    ensures Pertence(Rotulo(f), g) <==> g == GrupoDaFaixa(f)
  {
    if f.Aberta? {
      TestsOnOpen(f);
    } else {
      ChildTestOnClosed(f);
      MarkerTestsOnClosed(f);
    }
  }

  /** Which bands fall in which group, by position in the list. */
  lemma GroupsByPosition(k: nat)
    requires k < |FAIXAS|
    ensures GrupoDaFaixa(FAIXAS[k]) == Criancas <==> k < 3
    ensures GrupoDaFaixa(FAIXAS[k]) == Pea <==> 3 <= k < 12
    ensures GrupoDaFaixa(FAIXAS[k]) == Idosos <==> 12 <= k
  {
  }

  // ---------------------------------------------------------------------------
  // gerar_piramide_etaria
  // ---------------------------------------------------------------------------

  /**
   * The pyramid built from the bands `fs`: per band a men's entry then a women's
   * entry, both labelled with the band. `populacao(total, f, sexo)` stands for
   * the float computation `int(int(total * f.percentual) * 0.49)` (men) or
   * `* 0.51` (women), which is not modelled.
   */
  function PiramideDe(fs: seq<Faixa>, total: int, populacao: (int, Faixa, Sexo) -> int): (r: seq<Entrada>)
    ensures |r| == 2 * |fs|
  {
    if fs == [] then []
    else
      [Entrada(Homens, Rotulo(fs[0]), populacao(total, fs[0], Homens)),
       Entrada(Mulheres, Rotulo(fs[0]), populacao(total, fs[0], Mulheres))]
      + PiramideDe(fs[1..], total, populacao)
  }

  function Piramide(total: int, populacao: (int, Faixa, Sexo) -> int): seq<Entrada> {
    PiramideDe(FAIXAS, total, populacao)
  }

  lemma {:induction false} PiramideDeAppend(fs: seq<Faixa>, f: Faixa, total: int, populacao: (int, Faixa, Sexo) -> int)
    ensures PiramideDe(fs + [f], total, populacao) == PiramideDe(fs, total, populacao) + PiramideDe([f], total, populacao)
  {
    if fs != [] {
      assert (fs + [f])[1..] == fs[1..] + [f];
      PiramideDeAppend(fs[1..], f, total, populacao);
    }
  }

  /** The pyramid of the first `k + 1` bands: that of the first `k`, then band k's men's and women's entries. */
  lemma PiramideDePasso(fs: seq<Faixa>, k: nat, total: int, populacao: (int, Faixa, Sexo) -> int)
    requires k < |fs|
    ensures PiramideDe(fs[..k + 1], total, populacao) ==
      PiramideDe(fs[..k], total, populacao)
      + [Entrada(Homens, Rotulo(fs[k]), populacao(total, fs[k], Homens))]
      + [Entrada(Mulheres, Rotulo(fs[k]), populacao(total, fs[k], Mulheres))]
  {
    PiramideDeAppend(fs[..k], fs[k], total, populacao);
    assert fs[..k + 1] == fs[..k] + [fs[k]];
  }

  /** Entry 2k of a pyramid is band k's men's entry, entry 2k+1 its women's entry. */
  lemma {:induction false} PiramideDeAt(fs: seq<Faixa>, total: int, populacao: (int, Faixa, Sexo) -> int)
    ensures |PiramideDe(fs, total, populacao)| == 2 * |fs|
    ensures forall k :: 0 <= k < |fs| ==>
      PiramideDe(fs, total, populacao)[2 * k] == Entrada(Homens, Rotulo(fs[k]), populacao(total, fs[k], Homens)) &&
      PiramideDe(fs, total, populacao)[2 * k + 1] == Entrada(Mulheres, Rotulo(fs[k]), populacao(total, fs[k], Mulheres))
  {
    if fs != [] {
      PiramideDeAt(fs[1..], total, populacao);
      forall k | 1 <= k < |fs|
        ensures PiramideDe(fs, total, populacao)[2 * k] == Entrada(Homens, Rotulo(fs[k]), populacao(total, fs[k], Homens))
        ensures PiramideDe(fs, total, populacao)[2 * k + 1] == Entrada(Mulheres, Rotulo(fs[k]), populacao(total, fs[k], Mulheres))
      {
        PiramideDeShift(fs, total, populacao, k);
      }
    }
  }

  /** Past the first band, the entries of a pyramid are those of the pyramid of the remaining bands. */
  lemma PiramideDeShift(fs: seq<Faixa>, total: int, populacao: (int, Faixa, Sexo) -> int, k: nat)
    requires 1 <= k < |fs|
    requires |PiramideDe(fs[1..], total, populacao)| == 2 * (|fs| - 1)
    ensures PiramideDe(fs, total, populacao)[2 * k] == PiramideDe(fs[1..], total, populacao)[2 * (k - 1)]
    ensures PiramideDe(fs, total, populacao)[2 * k + 1] == PiramideDe(fs[1..], total, populacao)[2 * (k - 1) + 1]
    ensures fs[1..][k - 1] == fs[k]
  {
  }

  /**
   * `gerar_piramide_etaria`: 34 entries; entry 2k is the men's entry and entry
   * 2k+1 the women's entry of band k, both labelled "<faixa> anos".
   */
  method GerarPiramideEtaria(total: int, populacao: (int, Faixa, Sexo) -> int) returns (piramide: seq<Entrada>)
    ensures |piramide| == 2 * |FAIXAS| == 34
    ensures forall k :: 0 <= k < |FAIXAS| ==>
      piramide[2 * k] == Entrada(Homens, Rotulo(FAIXAS[k]), populacao(total, FAIXAS[k], Homens)) &&
      piramide[2 * k + 1] == Entrada(Mulheres, Rotulo(FAIXAS[k]), populacao(total, FAIXAS[k], Mulheres))
    ensures piramide == Piramide(total, populacao)
  {
    var faixas := FAIXAS;
    piramide := [];
    var k := 0;
    while k < |faixas|
      invariant 0 <= k <= |faixas|
      invariant piramide == PiramideDe(faixas[..k], total, populacao)
    {
      var f := faixas[k];
      PiramideDePasso(faixas, k, total, populacao);
      piramide := piramide + [Entrada(Homens, Rotulo(f), populacao(total, f, Homens))];
      piramide := piramide + [Entrada(Mulheres, Rotulo(f), populacao(total, f, Mulheres))];
      k := k + 1;
    }
    assert faixas[..k] == faixas;
    PiramideDeAt(faixas, total, populacao);
  }

  // ---------------------------------------------------------------------------
  // calcular_indices_demograficos
  // ---------------------------------------------------------------------------

  /** `sum(item['populacao'] for item in piramide if <test of the group>)` */
  function Soma(p: seq<Entrada>, grupo: Grupo): (r: int)
    ensures (forall i :: 0 <= i < |p| ==> p[i].populacao >= 0) ==> 0 <= r <= SomaTotal(p)
  {
    if p == [] then 0
    else (if Pertence(p[0].idadeGrupo, grupo) then p[0].populacao else 0) + Soma(p[1..], grupo)
  }

  /** The population of every entry. */
  function SomaTotal(p: seq<Entrada>): int {
    if p == [] then 0 else p[0].populacao + SomaTotal(p[1..])
  }

  /** The population of the bands of `fs` that belong to `grupo`, both sexes. */
  function SomaFaixas(fs: seq<Faixa>, grupo: Grupo, total: int, populacao: (int, Faixa, Sexo) -> int): int {
    if fs == [] then 0
    else
      (if GrupoDaFaixa(fs[0]) == grupo then populacao(total, fs[0], Homens) + populacao(total, fs[0], Mulheres) else 0)
      + SomaFaixas(fs[1..], grupo, total, populacao)
  }

  datatype Indices = Indices(criancasPea: real, idososPea: real)

  /** `calcular_indices_demograficos`: children / PEA and elderly / PEA, both 0 when PEA is not positive. */
  function CalcularIndicesDemograficos(p: seq<Entrada>): (r: Indices)
    ensures Soma(p, Pea) <= 0 ==> r == Indices(0.0, 0.0)
    ensures Soma(p, Pea) > 0 ==>
      Quociente(r.criancasPea, Soma(p, Criancas), Soma(p, Pea)) &&
      Quociente(r.idososPea, Soma(p, Idosos), Soma(p, Pea))
  {
    Indices(IndicePea(Soma(p, Criancas), Soma(p, Pea)), IndicePea(Soma(p, Idosos), Soma(p, Pea)))
  }

  /** Each group's sum over a pyramid counts exactly the bands of that group. */
  lemma {:induction false} SomaPiramideDe(fs: seq<Faixa>, grupo: Grupo, total: int, populacao: (int, Faixa, Sexo) -> int)
    requires forall f :: f in fs ==> f in FAIXAS
    ensures Soma(PiramideDe(fs, total, populacao), grupo) == SomaFaixas(fs, grupo, total, populacao)
  {
    if fs != [] {
      var p := PiramideDe(fs, total, populacao);
      var rest := PiramideDe(fs[1..], total, populacao);
      assert p[1..][1..] == rest;
      BandsPartitioned(fs[0], grupo);
      SomaPiramideDe(fs[1..], grupo, total, populacao);
    }
  }

  lemma {:induction false} SomaTotalPiramideDe(fs: seq<Faixa>, total: int, populacao: (int, Faixa, Sexo) -> int)
    ensures SomaTotal(PiramideDe(fs, total, populacao)) ==
      SomaFaixas(fs, Criancas, total, populacao) + SomaFaixas(fs, Pea, total, populacao) + SomaFaixas(fs, Idosos, total, populacao)
  {
    if fs != [] {
      var p := PiramideDe(fs, total, populacao);
      assert p[1..][1..] == PiramideDe(fs[1..], total, populacao);
      SomaTotalPiramideDe(fs[1..], total, populacao);
    }
  }

  /**
   * On the generated pyramid the children, PEA and elderly sums cover the bands
   * 0-4..10-14, 15-19..55-59 and 60-64..80+ respectively, and together they
   * count every entry exactly once.
   */
  lemma GroupSumsPartitionPyramid(total: int, populacao: (int, Faixa, Sexo) -> int)
    ensures Soma(Piramide(total, populacao), Criancas) == SomaFaixas(FAIXAS[..3], Criancas, total, populacao)
    ensures Soma(Piramide(total, populacao), Pea) == SomaFaixas(FAIXAS[3..12], Pea, total, populacao)
    ensures Soma(Piramide(total, populacao), Idosos) == SomaFaixas(FAIXAS[12..], Idosos, total, populacao)
    ensures Soma(Piramide(total, populacao), Criancas) + Soma(Piramide(total, populacao), Pea)
      + Soma(Piramide(total, populacao), Idosos) == SomaTotal(Piramide(total, populacao))
  {
    SomaPiramideDe(FAIXAS, Criancas, total, populacao);
    SomaPiramideDe(FAIXAS, Pea, total, populacao);
    SomaPiramideDe(FAIXAS, Idosos, total, populacao);
    SomaTotalPiramideDe(FAIXAS, total, populacao);
    SomaFaixasTercos(Criancas, total, populacao);
    SomaFaixasTercos(Pea, total, populacao);
    SomaFaixasTercos(Idosos, total, populacao);
    SomenteCriancas(total, populacao);
    SomentePea(total, populacao);
    SomenteIdosos(total, populacao);
  }

  /** The band sums over FAIXAS split at the group boundaries 3 and 12. */
  lemma SomaFaixasTercos(g: Grupo, total: int, populacao: (int, Faixa, Sexo) -> int)
    ensures SomaFaixas(FAIXAS, g, total, populacao) ==
      SomaFaixas(FAIXAS[..3], g, total, populacao) + SomaFaixas(FAIXAS[3..12], g, total, populacao) + SomaFaixas(FAIXAS[12..], g, total, populacao)
  {
    SomaFaixasSplit(FAIXAS[..3], FAIXAS[3..], g, total, populacao);
    SomaFaixasSplit(FAIXAS[3..12], FAIXAS[12..], g, total, populacao);
    assert FAIXAS[..3] + FAIXAS[3..] == FAIXAS;
    assert FAIXAS[3..12] + FAIXAS[12..] == FAIXAS[3..];
  }

  lemma SomenteCriancas(total: int, populacao: (int, Faixa, Sexo) -> int)
    ensures SomaFaixas(FAIXAS[..3], Pea, total, populacao) == 0
    ensures SomaFaixas(FAIXAS[..3], Idosos, total, populacao) == 0
  {
    SomaFaixasOther(FAIXAS[..3], Pea, total, populacao);
    SomaFaixasOther(FAIXAS[..3], Idosos, total, populacao);
  }

  lemma SomentePea(total: int, populacao: (int, Faixa, Sexo) -> int)
    ensures SomaFaixas(FAIXAS[3..12], Criancas, total, populacao) == 0
    ensures SomaFaixas(FAIXAS[3..12], Idosos, total, populacao) == 0
  {
    SomaFaixasOther(FAIXAS[3..12], Criancas, total, populacao);
    SomaFaixasOther(FAIXAS[3..12], Idosos, total, populacao);
  }

  lemma SomenteIdosos(total: int, populacao: (int, Faixa, Sexo) -> int)
    ensures SomaFaixas(FAIXAS[12..], Criancas, total, populacao) == 0
    ensures SomaFaixas(FAIXAS[12..], Pea, total, populacao) == 0
  {
    SomaFaixasOther(FAIXAS[12..], Criancas, total, populacao);
    SomaFaixasOther(FAIXAS[12..], Pea, total, populacao);
  }

  lemma {:induction false} SomaFaixasSplit(a: seq<Faixa>, b: seq<Faixa>, g: Grupo, total: int, populacao: (int, Faixa, Sexo) -> int)
    ensures SomaFaixas(a + b, g, total, populacao) == SomaFaixas(a, g, total, populacao) + SomaFaixas(b, g, total, populacao)
  {
    if a != [] {
      assert (a + b)[1..] == a[1..] + b;
      SomaFaixasSplit(a[1..], b, g, total, populacao);
    } else {
      assert a + b == b;
    }
  }

  lemma {:induction false} SomaFaixasOther(fs: seq<Faixa>, g: Grupo, total: int, populacao: (int, Faixa, Sexo) -> int)
    requires forall f :: f in fs ==> GrupoDaFaixa(f) != g
    ensures SomaFaixas(fs, g, total, populacao) == 0
  {
    if fs != [] {
      SomaFaixasOther(fs[1..], g, total, populacao);
    }
  }

  // ---------------------------------------------------------------------------
  // gerar_dados_cidade: reference data and the benchmarking status
  // ---------------------------------------------------------------------------

  datatype DadosEstado = DadosEstado(populacao: int, leitosPorMil: real, coberturaPlano: real, salarioMedio: real, desemprego: real)

  /** `DADOS_ESTADUAIS`: reference figures of the ten states that have sample cities. */
  const DADOS_ESTADUAIS: map<string, DadosEstado> := map[
    "SP" := DadosEstado(46649132, 2.15, 45.0, 3200.0, 7.5),
    "RJ" := DadosEstado(17463349, 2.05, 38.0, 3100.0, 8.2),
    "MG" := DadosEstado(21411923, 1.95, 32.0, 2800.0, 8.8),
    "BA" := DadosEstado(14985284, 1.80, 28.0, 2400.0, 10.5),
    "PR" := DadosEstado(11780561, 2.10, 40.0, 3000.0, 7.8),
    "SC" := DadosEstado(7252502, 2.20, 42.0, 3100.0, 6.5),
    "RS" := DadosEstado(11466630, 2.25, 43.0, 3150.0, 7.2),
    "PE" := DadosEstado(9616621, 1.75, 25.0, 2300.0, 11.2),
    "CE" := DadosEstado(9240580, 1.70, 23.0, 2250.0, 11.8),
    "PA" := DadosEstado(8777124, 1.65, 20.0, 2200.0, 12.5)
  ]

  /** `DADOS_NACIONAIS` */
  const DADOS_NACIONAIS: DadosEstado := DadosEstado(213421037, 2.10, 30.0, 2800.0, 8.5)

  datatype Cidade = Cidade(nome: string, ibge: int, populacao: int)

  /** The three `random.uniform` deviations drawn for a city: bed ratio, plan coverage, salary. */
  datatype Sorteio = Sorteio(leitos: real, cobertura: real, salario: real)

  datatype Status = Acima | Abaixo

  /** `'Acima' if municipal > referencia else 'Abaixo'` */
  function Comparar(municipal: real, referencia: real): Status {
    if municipal > referencia then Acima else Abaixo
  }

  /** A municipal value against the state and national references, with both statuses. */
  datatype Comparativo = Comparativo(municipal: real, estadual: real, nacional: real, statusEstadual: Status, statusNacional: Status)

  function Comparativo3(municipal: real, estadual: real, nacional: real): Comparativo {
    Comparativo(municipal, estadual, nacional, Comparar(municipal, estadual), Comparar(municipal, nacional))
  }

  /** The modelled part of one generated city record. */
  datatype DadosCidade = DadosCidade(
    municipioIbge: int,
    nomeMunicipio: string,
    ufSigla: string,
    populacaoMunicipal: int,
    populacaoUf: int,
    populacaoBrasil: int,
    piramide: seq<Entrada>,
    indices: Indices,
    leitos: Comparativo,
    planos: Comparativo,
    salario: Comparativo)

  /** `gerar_dados_cidade`, with the random draws and the per-band populations as parameters. */
  function GerarDadosCidade(cidade: Cidade, estado: string, dados: DadosEstado, sorteio: Sorteio,
                            populacao: (int, Faixa, Sexo) -> int): (r: DadosCidade)
    ensures r.municipioIbge == cidade.ibge && r.nomeMunicipio == cidade.nome && r.ufSigla == estado
    ensures r.populacaoMunicipal == cidade.populacao && r.populacaoUf == dados.populacao
    ensures StatusConsistent(r.leitos) && StatusConsistent(r.planos) && StatusConsistent(r.salario)
  {
    var piramide := Piramide(cidade.populacao, populacao);
    DadosCidade(
      cidade.ibge, cidade.nome, estado,
      cidade.populacao, dados.populacao, DADOS_NACIONAIS.populacao,
      piramide, CalcularIndicesDemograficos(piramide),
      Comparativo3(dados.leitosPorMil + sorteio.leitos, dados.leitosPorMil, DADOS_NACIONAIS.leitosPorMil),
      Comparativo3(dados.coberturaPlano + sorteio.cobertura, dados.coberturaPlano, DADOS_NACIONAIS.coberturaPlano),
      Comparativo3(dados.salarioMedio + sorteio.salario, dados.salarioMedio, DADOS_NACIONAIS.salarioMedio))
  }

  /** A comparison's status says "Acima" exactly when the municipal value is strictly greater. */
  predicate StatusConsistent(c: Comparativo) {
    (c.statusEstadual == Acima <==> c.municipal > c.estadual) &&
    (c.statusNacional == Acima <==> c.municipal > c.nacional)
  }

  /**
   * Every status in a city record is "Acima" exactly when the municipal value
   * strictly exceeds the reference; a tie gives "Abaixo", and the municipal
   * value cannot be "Acima" against both a reference and a larger one while
   * "Abaixo" against the smaller.
   */
  lemma StatusRule(cidade: Cidade, estado: string, dados: DadosEstado, sorteio: Sorteio, populacao: (int, Faixa, Sexo) -> int)
    ensures var r := GerarDadosCidade(cidade, estado, dados, sorteio, populacao);
      StatusConsistent(r.leitos) && StatusConsistent(r.planos) && StatusConsistent(r.salario)
    ensures forall x: real, y: real :: x <= y ==> Comparar(x, y) == Abaixo
    ensures forall x: real, y: real, z: real :: y <= z && Comparar(x, z) == Acima ==> Comparar(x, y) == Acima
  {
  }

  // ---------------------------------------------------------------------------
  // gerar_todos_dados
  // ---------------------------------------------------------------------------

  /**
   * `CIDADES_POR_ESTADO`: the sample cities of each state, as (state key,
   * cities) pairs in the dictionary's insertion order, which is the order
   * `items()` iterates in.
   */
  const CIDADES_POR_ESTADO: seq<(string, seq<Cidade>)> := [
    ("SP", [
      Cidade("São Paulo", 3550308, 12396372),
      Cidade("Campinas", 3509007, 1213792),
      Cidade("São José dos Campos", 3549904, 737314),
      Cidade("Santos", 3548906, 433656),
      Cidade("Sorocaba", 3552403, 687357),
      Cidade("Ribeirão Preto", 3543402, 704293),
      Cidade("Piracicaba", 3538402, 400570),
      Cidade("Jundiaí", 3525904, 405532)
    ]),
    ("RJ", [
      Cidade("Rio de Janeiro", 3304557, 6748008),
      Cidade("Niterói", 3303302, 487562),
      Cidade("Duque de Caxias", 3301702, 872762),
      Cidade("São Gonçalo", 3305802, 1026267),
      Cidade("Nova Iguaçu", 3303500, 798067)
    ]),
    ("MG", [
      Cidade("Belo Horizonte", 3106200, 2530701),
      Cidade("Uberlândia", 3170701, 715259),
      Cidade("Contagem", 3115200, 645344),
      Cidade("Juiz de Fora", 3132404, 573458),
      Cidade("Montes Claros", 3142402, 404693)
    ]),
    ("BA", [
      Cidade("Salvador", 2927408, 2662473),
      Cidade("Feira de Santana", 2910800, 632079),
      Cidade("Vitória da Conquista", 2933604, 343216),
      Cidade("Camaçari", 2904144, 294139)
    ]),
    ("PR", [
      Cidade("Curitiba", 4106902, 1963726),
      Cidade("Londrina", 4113700, 569639),
      Cidade("Maringá", 4115200, 423644),
      Cidade("Ponta Grossa", 4120402, 348036)
    ]),
    ("SC", [
      Cidade("Florianópolis", 4204402, 537062),
      Cidade("Joinville", 4209102, 612809),
      Cidade("Blumenau", 4202404, 342055),
      Cidade("Itajaí", 4208203, 212765)
    ]),
    ("RS", [
      Cidade("Porto Alegre", 4314902, 1409351),
      Cidade("Caxias do Sul", 4305108, 488635),
      Cidade("Pelotas", 4314407, 348575),
      Cidade("Santa Maria", 4316907, 283437)
    ]),
    ("PE", [
      Cidade("Recife", 2611606, 1645727),
      Cidade("Jaboatão dos Guararapes", 2605459, 684697),
      Cidade("Olinda", 2609600, 392367),
      Cidade("Caruaru", 2604106, 368028)
    ]),
    ("CE", [
      Cidade("Fortaleza", 2304400, 2703391),
      Cidade("Caucaia", 2303105, 366376),
      Cidade("Juazeiro do Norte", 2307304, 276055),
      Cidade("Maracanaú", 2308278, 231627)
    ]),
    ("PA", [
      Cidade("Belém", 1501402, 1497724),
      Cidade("Ananindeua", 1500800, 529355),
      Cidade("Santarém", 1506807, 306971),
      Cidade("Marabá", 1504208, 280360)
    ])
  ]

  /** The records of one state's cities; the k-th record overall uses the k-th draw. */
  function DadosDoEstado(uf: string, cidades: seq<Cidade>, n: nat, sorteios: nat -> Sorteio,
                         populacao: (int, Faixa, Sexo) -> int): (r: seq<DadosCidade>)
    requires uf in DADOS_ESTADUAIS
    ensures |r| == |cidades|
  {
    seq(|cidades|, j requires 0 <= j < |cidades| =>
      GerarDadosCidade(cidades[j], uf, DADOS_ESTADUAIS[uf], sorteios(n + j), populacao))
  }

  /**
   * Appending the record of city `j`, drawn with the next draw, to the records
   * of the first `j` cities gives the records of the first `j + 1`.
   */
  lemma DadosDoEstadoPasso(base: seq<DadosCidade>, dados: seq<DadosCidade>, uf: string, cidades: seq<Cidade>,
                           sorteios: nat -> Sorteio, populacao: (int, Faixa, Sexo) -> int, j: nat)
    requires uf in DADOS_ESTADUAIS
    requires j < |cidades|
    requires dados == base + DadosDoEstado(uf, cidades, |base|, sorteios, populacao)[..j]
    ensures dados + [GerarDadosCidade(cidades[j], uf, DADOS_ESTADUAIS[uf], sorteios(|dados|), populacao)] ==
      base + DadosDoEstado(uf, cidades, |base|, sorteios, populacao)[..j + 1]
  {
    var d := DadosDoEstado(uf, cidades, |base|, sorteios, populacao);
    assert d[..j + 1] == d[..j] + [d[j]];
    assert base + d[..j] + [d[j]] == base + (d[..j] + [d[j]]);
  }

  /**
   * What `gerar_todos_dados` returns for the state table `tabela` (a list of
   * (state key, cities) in dictionary order): the records of every state in
   * turn, or the `KeyError` raised for the first state missing from
   * `DADOS_ESTADUAIS`.
   */
  function TodosDados(tabela: seq<(string, seq<Cidade>)>, sorteios: nat -> Sorteio,
                      populacao: (int, Faixa, Sexo) -> int): (r: Result<seq<DadosCidade>, string>)
    ensures r.Failure? ==> r.error !in DADOS_ESTADUAIS
  {
    if tabela == [] then Success([])
    else
      match TodosDados(tabela[..|tabela| - 1], sorteios, populacao)
      case Failure(e) => Failure(e)
      case Success(antes) =>
        var (uf, cidades) := tabela[|tabela| - 1];
        if uf !in DADOS_ESTADUAIS then Failure(uf)
        else Success(antes + DadosDoEstado(uf, cidades, |antes|, sorteios, populacao))
  }

  /** `gerar_todos_dados`: one record per (state, city), states in table order and each state's cities in order. */
  method GerarTodosDados(tabela: seq<(string, seq<Cidade>)>, sorteios: nat -> Sorteio,
                         populacao: (int, Faixa, Sexo) -> int) returns (r: Result<seq<DadosCidade>, string>)
    ensures r == TodosDados(tabela, sorteios, populacao)
    ensures r.Failure? <==> exists i :: 0 <= i < |tabela| && tabela[i].0 !in DADOS_ESTADUAIS
    ensures r.Success? ==> |r.value| == TotalCidades(tabela)
  {
    var dados: seq<DadosCidade> := [];
    var i := 0;
    while i < |tabela|
      invariant 0 <= i <= |tabela|
      invariant TodosDados(tabela[..i], sorteios, populacao) == Success(dados)
    {
      var (estado, cidades) := tabela[i];
      assert tabela[..i + 1][..i] == tabela[..i];
      TodosDadosPasso(tabela, i, sorteios, populacao, dados);
      if estado !in DADOS_ESTADUAIS {
        r := Failure(estado);
        TodosDadosPrefix(tabela, i + 1, sorteios, populacao);
        TodosDadosFailure(tabela, sorteios, populacao);
        return;
      }
      var dadosEstado := DADOS_ESTADUAIS[estado];
      var base := dados;
      var j := 0;
      while j < |cidades|
        invariant 0 <= j <= |cidades|
        invariant dados == base + DadosDoEstado(estado, cidades, |base|, sorteios, populacao)[..j]
      {
        DadosDoEstadoPasso(base, dados, estado, cidades, sorteios, populacao, j);
        dados := dados + [GerarDadosCidade(cidades[j], estado, dadosEstado, sorteios(|dados|), populacao)];
        j := j + 1;
      }
      var doEstado := DadosDoEstado(estado, cidades, |base|, sorteios, populacao);
      assert doEstado[..j] == doEstado;
      i := i + 1;
    }
    assert tabela[..i] == tabela;
    r := Success(dados);
    TodosDadosFailure(tabela, sorteios, populacao);
    TodosDadosLength(tabela, sorteios, populacao);
  }

  /** One more state of the table: it either fails with its key or appends its cities' records. */
  lemma TodosDadosPasso(tabela: seq<(string, seq<Cidade>)>, i: nat, sorteios: nat -> Sorteio,
                        populacao: (int, Faixa, Sexo) -> int, dados: seq<DadosCidade>)
    requires i < |tabela|
    requires TodosDados(tabela[..i], sorteios, populacao) == Success(dados)
    ensures tabela[i].0 !in DADOS_ESTADUAIS ==> TodosDados(tabela[..i + 1], sorteios, populacao) == Failure(tabela[i].0)
    ensures tabela[i].0 in DADOS_ESTADUAIS ==> (TodosDados(tabela[..i + 1], sorteios, populacao) ==
      Success(dados + DadosDoEstado(tabela[i].0, tabela[i].1, |dados|, sorteios, populacao)))
  {
    assert tabela[..i + 1][..i] == tabela[..i];
    assert tabela[..i + 1][i] == tabela[i];
  }

  function TotalCidades(tabela: seq<(string, seq<Cidade>)>): nat {
    if tabela == [] then 0 else TotalCidades(tabela[..|tabela| - 1]) + |tabela[|tabela| - 1].1|
  }

  /** A failure on a prefix of the table is the failure of the whole table. */
  lemma {:induction false} TodosDadosPrefix(tabela: seq<(string, seq<Cidade>)>, n: nat, sorteios: nat -> Sorteio,
                                           populacao: (int, Faixa, Sexo) -> int)
    requires n <= |tabela|
    requires TodosDados(tabela[..n], sorteios, populacao).Failure?
    ensures TodosDados(tabela, sorteios, populacao) == TodosDados(tabela[..n], sorteios, populacao)
    decreases |tabela| - n
  {
    if n < |tabela| {
      assert tabela[..n + 1][..n] == tabela[..n];
      TodosDadosPrefix(tabela, n + 1, sorteios, populacao);
    } else {
      assert tabela[..n] == tabela;
    }
  }

  /** Generation fails exactly when some state key has no reference data, and then it names the first such key. */
  lemma {:induction false} TodosDadosFailure(tabela: seq<(string, seq<Cidade>)>, sorteios: nat -> Sorteio,
                                            populacao: (int, Faixa, Sexo) -> int)
    ensures TodosDados(tabela, sorteios, populacao).Failure? <==>
      exists i :: 0 <= i < |tabela| && tabela[i].0 !in DADOS_ESTADUAIS
    ensures TodosDados(tabela, sorteios, populacao).Failure? ==>
      exists i :: 0 <= i < |tabela| && tabela[i].0 == TodosDados(tabela, sorteios, populacao).error &&
        tabela[i].0 !in DADOS_ESTADUAIS && forall k :: 0 <= k < i ==> tabela[k].0 in DADOS_ESTADUAIS
  {
    if tabela != [] {
      var n := |tabela| - 1;
      var prefix := tabela[..n];
      TodosDadosFailure(prefix, sorteios, populacao);
      assert forall i :: 0 <= i < n ==> prefix[i] == tabela[i];
      if TodosDados(prefix, sorteios, populacao).Failure? {
        var i :| 0 <= i < n && prefix[i].0 == TodosDados(prefix, sorteios, populacao).error &&
          prefix[i].0 !in DADOS_ESTADUAIS && forall k :: 0 <= k < i ==> prefix[k].0 in DADOS_ESTADUAIS;
        assert tabela[i] == prefix[i];
      }
    }
  }

  /** On success there is one record per city of the table. */
  lemma {:induction false} TodosDadosLength(tabela: seq<(string, seq<Cidade>)>, sorteios: nat -> Sorteio,
                                           populacao: (int, Faixa, Sexo) -> int)
    ensures TodosDados(tabela, sorteios, populacao).Success? ==>
      |TodosDados(tabela, sorteios, populacao).value| == TotalCidades(tabela)
  {
    if tabela != [] {
      TodosDadosLength(tabela[..|tabela| - 1], sorteios, populacao);
    }
  }

  /**
   * On success, the record at position `TotalCidades(tabela[..i]) + j` is city j
   * of state i, generated with that state's key (as `uf_sigla`) and reference data.
   */
  lemma {:induction false} TodosDadosAt(tabela: seq<(string, seq<Cidade>)>, sorteios: nat -> Sorteio,
                                       populacao: (int, Faixa, Sexo) -> int, i: nat, j: nat)
    requires TodosDados(tabela, sorteios, populacao).Success?
    requires i < |tabela| && j < |tabela[i].1|
    ensures tabela[i].0 in DADOS_ESTADUAIS
    ensures TotalCidades(tabela[..i]) + j < |TodosDados(tabela, sorteios, populacao).value|
    ensures var k := TotalCidades(tabela[..i]) + j;
      TodosDados(tabela, sorteios, populacao).value[k] ==
        GerarDadosCidade(tabela[i].1[j], tabela[i].0, DADOS_ESTADUAIS[tabela[i].0], sorteios(k), populacao)
    ensures TodosDados(tabela, sorteios, populacao).value[TotalCidades(tabela[..i]) + j].ufSigla == tabela[i].0
    ensures TodosDados(tabela, sorteios, populacao).value[TotalCidades(tabela[..i]) + j].municipioIbge == tabela[i].1[j].ibge
  {
    var n := |tabela| - 1;
    var prefix := tabela[..n];
    TodosDadosLength(prefix, sorteios, populacao);
    if i < n {
      assert prefix[i] == tabela[i] && prefix[..i] == tabela[..i];
      TodosDadosAt(prefix, sorteios, populacao, i, j);
    } else {
      assert prefix == tabela[..i];
    }
  }

  /** Every state key of the sample table has reference data. */
  lemma ChavesDaTabelaConhecidas()
    ensures forall i :: 0 <= i < |CIDADES_POR_ESTADO| ==> CIDADES_POR_ESTADO[i].0 in DADOS_ESTADUAIS
  {
    var keys := ["SP", "RJ", "MG", "BA", "PR", "SC", "RS", "PE", "CE", "PA"];
    assert forall i :: 0 <= i < |CIDADES_POR_ESTADO| ==> CIDADES_POR_ESTADO[i].0 == keys[i];
  }

  /** The sample table lists 46 cities. */
  lemma {:induction false} TotalDaTabela()
    ensures TotalCidades(CIDADES_POR_ESTADO) == 46
  {
    var t := CIDADES_POR_ESTADO;
    assert t[..0] == [];
    assert TotalCidades(t[..1]) == 8 by { assert t[..1][..0] == t[..0]; }
    assert TotalCidades(t[..2]) == 13 by { assert t[..2][..1] == t[..1]; }
    assert TotalCidades(t[..3]) == 18 by { assert t[..3][..2] == t[..2]; }
    assert TotalCidades(t[..4]) == 22 by { assert t[..4][..3] == t[..3]; }
    assert TotalCidades(t[..5]) == 26 by { assert t[..5][..4] == t[..4]; }
    assert TotalCidades(t[..6]) == 30 by { assert t[..6][..5] == t[..5]; }
    assert TotalCidades(t[..7]) == 34 by { assert t[..7][..6] == t[..6]; }
    assert TotalCidades(t[..8]) == 38 by { assert t[..8][..7] == t[..7]; }
    assert TotalCidades(t[..9]) == 42 by { assert t[..9][..8] == t[..8]; }
    assert t[..10] == t;
  }

  /**
   * `gerar_todos_dados()` on the sample table: whatever the draws and the
   * per-band populations, no `KeyError` is raised and there are 46 records,
   * one per sample city.
   */
  lemma TodosDadosDaTabela(sorteios: nat -> Sorteio, populacao: (int, Faixa, Sexo) -> int)
    ensures TodosDados(CIDADES_POR_ESTADO, sorteios, populacao).Success?
    ensures |TodosDados(CIDADES_POR_ESTADO, sorteios, populacao).value| == 46
  {
    ChavesDaTabelaConhecidas();
    TotalDaTabela();
    TodosDadosFailure(CIDADES_POR_ESTADO, sorteios, populacao);
    TodosDadosLength(CIDADES_POR_ESTADO, sorteios, populacao);
  }
}
