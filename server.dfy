/**
 * The market-intelligence endpoint of the Express server: the path parameter
 * is read with JavaScript's `parseInt` (no radix), the first fixture record
 * whose IBGE code is strictly equal to the result is returned in a success
 * envelope, and otherwise a 404 error names the code that was looked for.
 *
 * `parseInt` yields `None` for NaN; its result is the exact integer value of
 * the digits (see README for what that leaves out).
 */
module Server {
  import opened Wrappers
  import opened Text
  import EtlUtils

  /** A fixture record; `razaoLeitosPorMil` is the string `toFixed(2)` produced. */
  datatype Registro = Registro(
    municipioIbge: int,
    nomeMunicipio: string,
    populacaoTotal: int,
    cnpj: string,
    razaoSocial: string,
    leitosTotal: int,
    razaoLeitosPorMil: string)

  /** The JSON body and HTTP status of a response. */
  datatype Resposta = Resposta(httpStatus: int, status: string, data: Option<Registro>, message: string)

  const CNPJ_SJC: string := "00000000000191"
  const CNPJ_SP: string := "99999999999999"
  const RAZAO_SJC: string := "BANCO DO BRASIL SA (Exemplo de enriquecimento CNPJ)"
  const RAZAO_SP: string := "CLINICA TESTE SA (Exemplo de enriquecimento CNPJ)"

  const MOCK_DATA: seq<Registro> := [
    Registro(3549904, "São José dos Campos", 737314, CNPJ_SJC, RAZAO_SJC, 1500, "2.03"),
    Registro(3550308, "São Paulo", 12396372, CNPJ_SP, RAZAO_SP, 25000, "2.02")
  ]

  const MENSAGEM_SUCESSO: string := "Dados de inteligência de mercado recuperados com sucesso (Mock)."
  const MENSAGEM_NAO_ENCONTRADO: string := "Dados não encontrados para o código IBGE: "

  // ---------------------------------------------------------------------------
  // parseInt(string) with no radix
  // ---------------------------------------------------------------------------

  /** The white space and line terminators `parseInt` skips at the start. */
  predicate IsJsSpace(c: char) {
    c == '\t' || c == '\n' || c == '\U{000B}' || c == '\U{000C}' || c == '\r' || c == ' ' ||
    c == '\U{00A0}' || c == '\U{1680}' || ('\U{2000}' <= c <= '\U{200A}') ||
    c == '\U{2028}' || c == '\U{2029}' || c == '\U{202F}' || c == '\U{205F}' ||
    c == '\U{3000}' || c == '\U{FEFF}'
  }

  function TrimStart(s: string): (t: string)
    ensures |t| <= |s|
    ensures t == [] || !IsJsSpace(t[0])
  {
    if s != [] && IsJsSpace(s[0]) then TrimStart(s[1..]) else s
  }

  /** The value of `c` as a digit in base `radix` (10 or 16), or -1. */
  function DigitValue(c: char, radix: nat): int {
    if '0' <= c <= '9' then (if (c as int - '0' as int) < radix then c as int - '0' as int else -1)
    else if radix == 16 && 'a' <= c <= 'f' then c as int - 'a' as int + 10
    else if radix == 16 && 'A' <= c <= 'F' then c as int - 'A' as int + 10
    else -1
  }

  predicate IsRadixDigit(c: char, radix: nat) {
    DigitValue(c, radix) >= 0
  }

  /** The longest prefix of `s` made of base-`radix` digits. */
  function DigitPrefix(s: string, radix: nat): (z: string)
    ensures forall i :: 0 <= i < |z| ==> IsRadixDigit(z[i], radix)
  {
    if s == [] || !IsRadixDigit(s[0], radix) then [] else [s[0]] + DigitPrefix(s[1..], radix)
  }

  /** `DigitPrefix` is a prefix of its input, and the longest one made of digits. */
  lemma {:induction false} DigitPrefixLongest(s: string, radix: nat)
    ensures var z := DigitPrefix(s, radix);
      |z| <= |s| && z == s[..|z|] && (|z| < |s| ==> !IsRadixDigit(s[|z|], radix))
  {
    if s != [] && IsRadixDigit(s[0], radix) {
      DigitPrefixLongest(s[1..], radix);
    }
  }

  /** The value of a string of base-`radix` digits, most significant first. */
  function ValueOf(z: string, radix: nat): (v: int)
    ensures (forall i :: 0 <= i < |z| ==> IsRadixDigit(z[i], radix)) ==> v >= 0
  {
    if z == [] then 0
    else ValueOf(z[..|z| - 1], radix) * radix + DigitValue(z[|z| - 1], radix)
  }

  /**
   * `parseInt(s)`: skip leading white space, take an optional sign, then a
   * `0x`/`0X` prefix selects base 16; the longest run of digits is the value;
   * no digit at all is NaN (`None`).
   */
  function ParseInt(s: string): (r: Option<int>)
    ensures TrimStart(s) == [] ==> r.None?
    ensures r.Some? ==>
      TrimStart(s) != [] && (r.value < 0 ==> TrimStart(s)[0] == '-') && (TrimStart(s)[0] == '-' ==> r.value <= 0)
  {
    ParseSemEspaco(TrimStart(s))
  }

  /** `parseInt` on text that does not start with white space: the sign of the result is the sign written. */
  function ParseSemEspaco(t: string): (r: Option<int>)
    ensures t == [] ==> r.None?
    ensures r.Some? ==> t != [] && (r.value < 0 ==> t[0] == '-') && (t[0] == '-' ==> r.value <= 0)
  {
    var u := SemSinal(t);
    var radix := Base(u);
    var z := DigitPrefix(SemPrefixo(u), radix);
    if z == [] then None
    else if |t| > 0 && t[0] == '-' then Some(-ValueOf(z, radix))
    else Some(ValueOf(z, radix))
  }

  /** The text after an optional leading sign. */
  function SemSinal(t: string): string {
    if |t| > 0 && (t[0] == '-' || t[0] == '+') then t[1..] else t
  }

  /** 16 after a `0x`/`0X` prefix, 10 otherwise. */
  function Base(u: string): nat {
    if |u| >= 2 && u[0] == '0' && (u[1] == 'x' || u[1] == 'X') then 16 else 10
  }

  /** The text after the `0x`/`0X` prefix, if any. */
  function SemPrefixo(u: string): string {
    if Base(u) == 16 then u[2..] else u
  }

  /** The text `${ibgeCode}` renders: "NaN" or the decimal integer. */
  function NumberToString(n: Option<int>): string {
    match n
    case None => "NaN"
    case Some(v) => IntToString(v)
  }

  lemma {:induction false} ValueOfNatToString(n: nat)
    ensures forall i :: 0 <= i < |NatToString(n)| ==> IsRadixDigit(NatToString(n)[i], 10)
    ensures ValueOf(NatToString(n), 10) == n
  {
    var s := NatToString(n);
    if n >= 10 {
      ValueOfNatToString(n / 10);
      assert s[..|s| - 1] == NatToString(n / 10);
    }
  }

  lemma {:induction false} DigitPrefixStops(z: string, rest: string)
    requires AllDigits(z)
    requires rest == [] || !IsRadixDigit(rest[0], 10)
    ensures DigitPrefix(z + rest, 10) == z
  {
    if z != [] {
      assert (z + rest)[1..] == z[1..] + rest;
      DigitPrefixStops(z[1..], rest);
    } else {
      assert z + rest == rest;
    }
  }

  /**
   * `parseInt` reads back the decimal rendering of any integer after any
   * leading white space, whatever follows it when that is not a digit (so
   * "3549904abc" reads as 3549904), except that "0" followed by `x` or `X`
   * starts a hexadecimal number instead.
   */
  lemma ParseIntDecimal(n: int, rest: string, espaco: string)
    requires rest == [] || (!IsDigit(rest[0]) && (n == 0 ==> rest[0] != 'x' && rest[0] != 'X'))
    requires forall i :: 0 <= i < |espaco| ==> IsJsSpace(espaco[i])
    ensures ParseInt(espaco + IntToString(n) + rest) == Some(n)
  {
    var t := IntToString(n) + rest;
    SignStep(n, rest);
    TrimSpaces(espaco, t);
    assert espaco + IntToString(n) + rest == espaco + t;
    DecimalSemEspaco(n, rest);
  }

  /** The decimal rendering of `n` followed by a non-digit reads back as `n`. */
  lemma DecimalSemEspaco(n: int, rest: string)
    requires rest == [] || (!IsDigit(rest[0]) && (n == 0 ==> rest[0] != 'x' && rest[0] != 'X'))
    ensures ParseSemEspaco(IntToString(n) + rest) == Some(n)
  {
    var m: nat := if n < 0 then -n else n;
    var d := NatToString(m);
    SignStep(n, rest);
    BaseStep(m, rest);
    ValueOfNatToString(m);
    DigitPrefixStops(d, rest);
  }

  /** The sign of the decimal rendering is read off and dropped. */
  lemma SignStep(n: int, rest: string)
    ensures var t := IntToString(n) + rest;
      t != [] && !IsJsSpace(t[0]) &&
      (t[0] == '-' <==> n < 0) &&
      SemSinal(t) == NatToString(if n < 0 then -n else n) + rest
  {
    var d := NatToString(if n < 0 then -n else n);
    if n < 0 {
      assert IntToString(n) + rest == ['-'] + (d + rest);
    } else {
      assert IsDigit((d + rest)[0]);
    }
  }

  /** A decimal rendering is read in base 10 unless it is "0" followed by `x` or `X`. */
  lemma BaseStep(m: nat, rest: string)
    requires rest == [] || (!IsDigit(rest[0]) && (m == 0 ==> rest[0] != 'x' && rest[0] != 'X'))
    ensures Base(NatToString(m) + rest) == 10
    ensures SemPrefixo(NatToString(m) + rest) == NatToString(m) + rest
  {
    var d := NatToString(m);
    var u := d + rest;
    if |d| == 1 {
      assert m < 10;
    } else {
      assert u[1] == d[1];
    }
  }

  lemma {:induction false} TrimSpaces(espaco: string, s: string)
    requires forall i :: 0 <= i < |espaco| ==> IsJsSpace(espaco[i])
    requires s == [] || !IsJsSpace(s[0])
    ensures TrimStart(espaco + s) == s
  {
    if espaco == [] {
      assert espaco + s == s;
    } else {
      assert (espaco + s)[1..] == espaco[1..] + s;
      TrimSpaces(espaco[1..], s);
    }
  }

  /** Text with no digit where the number should start is NaN, a lone `0x` included. */
  lemma ParseIntNaNExamples()
    ensures ParseInt("") == None
    ensures ParseInt("abc") == None
    ensures ParseInt(" -") == None
    ensures ParseInt("0x") == None
  {
    assert ParseInt("abc") == None by {
      assert TrimStart("abc") == "abc";
      assert SemSinal("abc") == "abc" && Base("abc") == 10;
      assert DigitPrefix("abc", 10) == [];
    }
    assert ParseInt(" -") == None by {
      assert TrimStart(" -") == "-" by {
        assert " -"[1..] == "-";
      }
      assert SemSinal("-") == [];
    }
    assert ParseInt("0x") == None by {
      assert TrimStart("0x") == "0x";
      assert SemSinal("0x") == "0x" && Base("0x") == 16;
      assert SemPrefixo("0x") == [];
    }
  }

  /** A `0x` prefix switches to base 16. */
  lemma ParseIntHexExample()
    ensures ParseInt("0x1F") == Some(31)
  {
    assert TrimStart("0x1F") == "0x1F";
    assert SemSinal("0x1F") == "0x1F" && Base("0x1F") == 16;
    assert SemPrefixo("0x1F") == "1F";
    assert DigitPrefix("1F", 16) == "1F" by {
      assert "1F"[1..] == "F" && "F"[1..] == [];
    }
    assert ValueOf("1F", 16) == 31 by {
      assert "1F"[..1] == "1" && "1"[..0] == [];
    }
  }

  /** Reading stops at the first character that is not a digit. */
  lemma ParseIntStopsExample()
    ensures ParseInt("12.5") == Some(12)
  {
    assert NatToString(12) == "12";
    ParseIntDecimal(12, ".5", "");
    assert "" + IntToString(12) + ".5" == "12.5";
  }

  // ---------------------------------------------------------------------------
  // The handler
  // ---------------------------------------------------------------------------

  /** `data.municipio_ibge === ibgeCode`: NaN equals nothing. */
  predicate Corresponde(r: Registro, codigo: Option<int>) {
    codigo == Some(r.municipioIbge)
  }

  /** `Array.prototype.find`: the first record that matches. */
  function Find(registros: seq<Registro>, codigo: Option<int>): (r: Option<Registro>)
    ensures r.Some? ==> r.value in registros && Corresponde(r.value, codigo)
  {
    if registros == [] then None
    else if Corresponde(registros[0], codigo) then Some(registros[0])
    else Find(registros[1..], codigo)
  }

  /** `i` is the first index whose record matches. */
  predicate PrimeiroIndice(registros: seq<Registro>, codigo: Option<int>, i: int) {
    0 <= i < |registros| && Corresponde(registros[i], codigo) &&
    forall j :: 0 <= j < i ==> !Corresponde(registros[j], codigo)
  }

  /** `find` returns nothing exactly when no record matches, and otherwise the first match. */
  lemma {:induction false} FindFirst(registros: seq<Registro>, codigo: Option<int>)
    ensures Find(registros, codigo).None? <==> forall i :: 0 <= i < |registros| ==> !Corresponde(registros[i], codigo)
    ensures Find(registros, codigo).Some? ==>
      exists i :: PrimeiroIndice(registros, codigo, i) && Find(registros, codigo).value == registros[i]
  {
    if registros != [] && !Corresponde(registros[0], codigo) {
      FindFirst(registros[1..], codigo);
      if Find(registros, codigo).Some? {
        var i :| PrimeiroIndice(registros[1..], codigo, i) && Find(registros, codigo).value == registros[1..][i];
        assert PrimeiroIndice(registros, codigo, i + 1);
      }
      forall i | 0 <= i < |registros| && Corresponde(registros[i], codigo) ensures Find(registros, codigo).Some? {
        assert registros[1..][i - 1] == registros[i];
      }
    } else if registros != [] {
      assert PrimeiroIndice(registros, codigo, 0);
    }
  }

  /** The route handler for `/api/v1/market-intelligence/:ibge_code`. */
  function Responder(registros: seq<Registro>, parametro: string): (r: Resposta)
    ensures r.httpStatus == 200 <==> r.status == "success"
    ensures r.httpStatus == 200 || (r.httpStatus == 404 && r.status == "error")
    ensures r.data.Some? <==> r.httpStatus == 200
    ensures r.data.Some? ==> r.data.value in registros && ParseInt(parametro) == Some(r.data.value.municipioIbge)
  {
    var codigo := ParseInt(parametro);
    match Find(registros, codigo)
    case Some(registro) => Resposta(200, "success", Some(registro), MENSAGEM_SUCESSO)
    case None => Resposta(404, "error", None, MENSAGEM_NAO_ENCONTRADO + NumberToString(codigo))
  }

  /**
   * The response is a success exactly when some record's code equals the parsed
   * parameter; it then carries the first such record, whose code is the one
   * requested; otherwise it is a 404 error whose message ends with the code as
   * text ("NaN" when the parameter has no leading number).
   */
  lemma ResponderContract(registros: seq<Registro>, parametro: string)
    ensures var r := Responder(registros, parametro);
      r.status == "success" <==>
        exists i :: 0 <= i < |registros| && ParseInt(parametro) == Some(registros[i].municipioIbge)
    ensures var r := Responder(registros, parametro);
      r.status == "success" ==>
        r.httpStatus == 200 && r.message == MENSAGEM_SUCESSO && r.data.Some? &&
        ParseInt(parametro) == Some(r.data.value.municipioIbge) &&
        exists i :: PrimeiroIndice(registros, ParseInt(parametro), i) && r.data.value == registros[i]
    ensures var r := Responder(registros, parametro);
      r.status != "success" ==>
        r.httpStatus == 404 && r.status == "error" && r.data.None? &&
        r.message == MENSAGEM_NAO_ENCONTRADO + NumberToString(ParseInt(parametro))
  {
    FindFirst(registros, ParseInt(parametro));
  }

  /** A parameter with no leading number parses to NaN, which matches no record: always a 404. */
  lemma NaNIsNotFound(registros: seq<Registro>, parametro: string)
    requires ParseInt(parametro).None?
    ensures Responder(registros, parametro) ==
      Resposta(404, "error", None, MENSAGEM_NAO_ENCONTRADO + "NaN")
  {
    FindFirst(registros, None);
  }

  /** The fixture's IBGE codes are distinct, so for any code at most one record matches and the lookup is unambiguous. */
  lemma FixtureCodesDistinct()
    ensures forall i, j :: 0 <= i < j < |MOCK_DATA| ==> MOCK_DATA[i].municipioIbge != MOCK_DATA[j].municipioIbge
  {
  }

  /**
   * The fixture's CNPJs are already in the normalised form: fourteen digits,
   * which `CnpjFixo` shows `normalize_cnpj` leaves unchanged.
   */
  lemma FixtureCnpjsNormalized()
    ensures forall i :: 0 <= i < |MOCK_DATA| ==>
      |MOCK_DATA[i].cnpj| == EtlUtils.CnpjLength && AllDigits(MOCK_DATA[i].cnpj)
  {
  }

  /** A string of fourteen digits is a fixed point of `normalize_cnpj`. */
  lemma CnpjFixo(c: string)
    requires |c| == EtlUtils.CnpjLength && AllDigits(c)
    ensures EtlUtils.NormalizeCnpj(Some(c)) == Some(c)
  {
    DigitsOfDigits(c);
    EtlUtils.NormalizeFullLength(c);
  }

  lemma ParseSJC()
    ensures ParseInt("3549904") == Some(3549904)
  {
    DecimalSJC();
    ParseIntDecimal(3549904, "", "");
    assert "" + IntToString(3549904) + "" == "3549904";
  }

  lemma DecimalSJC()
    ensures NatToString(3549904) == "3549904"
  {
    assert NatToString(3549904) == "3549904" by {
      assert NatToString(3) == "3";
      assert NatToString(35) == "35";
      assert NatToString(354) == "354";
      assert NatToString(3549) == "3549";
      assert NatToString(35499) == "35499";
      assert NatToString(354990) == "354990";
    }
  }

  lemma ParseSP()
    ensures ParseInt("3550308") == Some(3550308)
  {
    DecimalSP();
    ParseIntDecimal(3550308, "", "");
    assert "" + IntToString(3550308) + "" == "3550308";
  }

  lemma DecimalSP()
    ensures NatToString(3550308) == "3550308"
  {
    assert NatToString(3550308) == "3550308" by {
      assert NatToString(3) == "3";
      assert NatToString(35) == "35";
      assert NatToString(355) == "355";
      assert NatToString(3550) == "3550";
      assert NatToString(35503) == "35503";
      assert NatToString(355030) == "355030";
    }
  }

  /** Requests for the two fixture codes find their records; a non-numeric code is a 404 naming NaN. */
  lemma ResponderExamples()
    ensures Responder(MOCK_DATA, "3549904") == Resposta(200, "success", Some(MOCK_DATA[0]), MENSAGEM_SUCESSO)
    ensures Responder(MOCK_DATA, "3550308") == Resposta(200, "success", Some(MOCK_DATA[1]), MENSAGEM_SUCESSO)
    ensures Responder(MOCK_DATA, "abc") == Resposta(404, "error", None, MENSAGEM_NAO_ENCONTRADO + "NaN")
  {
    ParseIntNaNExamples();
    NaNIsNotFound(MOCK_DATA, "abc");
    ParseSJC();
    ParseSP();
    FindFixture();
  }

  lemma FindFixture()
    ensures Find(MOCK_DATA, Some(3549904)) == Some(MOCK_DATA[0])
    ensures Find(MOCK_DATA, Some(3550308)) == Some(MOCK_DATA[1])
  {
    var rs := MOCK_DATA;
    assert rs[1..][0] == rs[1];
    assert Find(rs[1..], Some(3550308)) == Some(rs[1]);
  }
}
