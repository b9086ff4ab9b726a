# hm-i-tool core, modelled in Dafny

hm-i-tool is a market-intelligence demo for Brazilian municipalities. Python
ETL helpers normalise CNPJ numbers and turn public-API payloads (IBGE SIDRA
age groups, CNES health establishments, INEP education figures) into
indicators. A generator produces mock city records with an age pyramid,
dependency indices and "Acima"/"Abaixo" benchmarks against state and national
references. An Express endpoint serves a record by IBGE code, and a browser
client groups the city list by state, drives the state, city and search
selects, and renders the age pyramid as a table.

The Dafny modules follow the source files:

- `EtlUtils` (`etl_utils.dfy`) models `normalize_cnpj`.
- `FetchRealData` (`fetch_real_data.dfy`) models three things:
  - `calcular_indices_demograficos_reais`, as a loop over the SIDRA rows;
  - `estruturar_estabelecimentos_reais`, which filters, sorts, truncates and projects;
  - `estruturar_dados_educacao_reais`.
- `GenerateMockData` (`generate_mock_data.dfy`) models:
  - the age pyramid and the substring tests that sort its bands into children, PEA and elderly;
  - `calcular_indices_demograficos`;
  - the benchmarking status rule of `gerar_dados_cidade`;
  - `gerar_todos_dados`.
- `App` (`app.dfy`) models the client. The page state is the class `App.Painel`, whose methods are `carregarCidades`, `inicializarEstados` and the change and click handlers. The pyramid table is a function on the pyramid.
- `Server` (`server.dfy`) models the `/api/v1/market-intelligence/:ibge_code` handler, including JavaScript `parseInt`.
- Shared modules:
  - `Wrappers`: `Option` and `Result`.
  - `Text`: digits, decimal rendering, substring search, upper-casing, code-point order.
  - `Sorting`: the library sorts, as one stable insertion sort over a strict weak order.
  - `Demografia`: the age groups and the "x / PEA, or 0" index.

Values that come from the environment are parameters:

- Random draws are a function from record position to draws.
- Per-band populations, which the source computes with floating point, are a function of (total, band, sex).
- `localeCompare` is an abstract strict weak order `collate`.
- Python's `int(...)` on a present field is `Num = Int(n) | NotInt | Null`. `NotInt` is a value that is not an integer and raises `ValueError`. `Null` is JSON null and raises `TypeError`.
- A missing dictionary key is `None`.
- `gerar_todos_dados` reads the module constant `CIDADES_POR_ESTADO`. `GerarTodosDados` takes the state table as a parameter, so its contract holds for any table. `TodosDadosDaTabela` applies it to the constant `GenerateMockData.CIDADES_POR_ESTADO`, which lists the ten states and their 46 cities in dictionary order.

## Model

| member | source | states |
|---|---|---|
| EtlUtils.ZFill | src/python/etl_utils.py:26 | The result is as long as the input or as the width, whichever is larger. An input already that long is unchanged. A digit string gets exactly `width - len` zeros in front. |
| EtlUtils.NormalizeCnpj | src/python/etl_utils.py:13-28 | `None` exactly when the input is absent or empty. Otherwise the result has 14 characters, all digits. With at most 14 digits it is the input's digits in order after leading zeros. With more, it is the first 14 digits. |
| EtlUtils.NormalizeIdempotent | src/python/etl_utils.py:21-28 | Normalising a normalised value returns it unchanged. |
| EtlUtils.NormalizeIgnoresPunctuation | src/python/etl_utils.py:21 | Inserting a non-digit character anywhere in a non-empty input does not change the result. |
| EtlUtils.DigitsSkip | src/python/etl_utils.py:21 | Removing the non-digits skips an inserted non-digit and keeps the digits on both sides in order. |
| EtlUtils.NormalizeNoDigits | src/python/etl_utils.py:21-26 | A non-empty input without digits normalises to fourteen zeros. |
| EtlUtils.NoDigits | src/python/etl_utils.py:21 | Text without digits leaves nothing after the non-digits are removed. |
| EtlUtils.DigitsFormatted | src/python/etl_utils.py:21 | The digits of a formatted `a.b.c/d-e` CNPJ are its five digit groups, concatenated in order. |
| EtlUtils.NormalizeFormattedExample | src/python/etl_utils.py:91-94 | "00.000.000/0001-91" normalises to "00000000000191". |
| EtlUtils.NormalizeFullLength | src/python/etl_utils.py:25-26 | An input with exactly 14 digits normalises to those digits, with no padding. |
| EtlUtils.NormalizeDegenerateExamples | src/python/etl_utils.py:18-26 | "abc" gives fourteen zeros. "" and `None` give `None`. |
| Text.Digits | src/python/etl_utils.py:21 | Removing the non-digits leaves only digits and never lengthens the text. |
| Text.DigitsAppend | src/python/etl_utils.py:21 | Removing the non-digits distributes over concatenation. |
| Text.DigitsOfDigits | src/python/etl_utils.py:21 | A string of digits is unchanged when the non-digits are removed. |
| Text.Upper | src/python/fetch_real_data.py:192 | Upper-casing keeps the length and maps each character on its own. |
| Text.LessTrichotomy | src/node/public/app.js:39 | Code-point order on strings is total and asymmetric, and no string precedes itself. |
| Text.LessTransitive | src/node/public/app.js:39 | Code-point order on strings is transitive. |
| Text.LessIsStrictWeakOrder | src/node/public/app.js:39 | The default string order of `sort()` is a strict weak order. |
| Sorting.Filter | src/python/fetch_real_data.py:179-180 | The comprehension keeps exactly the elements that pass the test, and nothing else. |
| Sorting.Take | src/python/fetch_real_data.py:183 | The slice `[:n]` is the first `min(n, len)` elements, unchanged. |
| Sorting.Sort | src/python/fetch_real_data.py:181 | Sorting keeps the length and is a permutation of its input. |
| Sorting.SortSorted | src/python/fetch_real_data.py:181 | Under any strict weak order the result is sorted: no element is strictly before an earlier one. |
| Sorting.SortStable | src/python/fetch_real_data.py:181 | Every class of equivalent elements keeps its input order, because the sort is stable. |
| Sorting.SortPermutation | src/python/fetch_real_data.py:193 | The sorted list has the same multiset and the same members as its input. |
| Demografia.IndicePea | src/python/generate_mock_data.py:128-129 | The index is 0 when PEA is not positive. Otherwise it is the exact quotient: multiplied by PEA it gives the group's count. It is non-negative for a non-negative count. |
| FetchRealData.CalcularIndicesDemograficosReais | src/python/fetch_real_data.py:115-165 | The loop raises exactly when some counted row has a value that does not convert to an integer, or has no age-group name. The exception is that of the first such row: `ValueError` for a non-integer value, `TypeError` for a null value or a missing name. Otherwise both indices are group sum over PEA sum, or 0 when PEA is not positive. The total is the sum over the classified rows. Each group sum counts only 'Total'/'Total' rows, under the if/elif precedence. |
| FetchRealData.IndicesReaisContract | src/python/fetch_real_data.py:136-163 | The same five properties, for the specification of the loop's outcome. |
| FetchRealData.AcumularFailure | src/python/fetch_real_data.py:142-152 | The counters fail exactly when some row fails, and then with the first failing row's exception. |
| FetchRealData.Acumular | src/python/fetch_real_data.py:142-152 | When no row is a 'Total'/'Total' row, the loop leaves all three counters at 0. |
| FetchRealData.AcumularPrefix | src/python/fetch_real_data.py:142-152 | An exception on a prefix of the rows ends the whole loop with that exception. |
| FetchRealData.AcumularSums | src/python/fetch_real_data.py:142-152 | On success each counter equals the reference sum of its group's rows. The three counters together equal the sum of every classified row. |
| FetchRealData.SomaGrupoSnoc | src/python/fetch_real_data.py:147-152 | One more row adds its value to the sum of the one group its name selects, and to no other group. |
| FetchRealData.EstruturarEstabelecimentosReais | src/python/fetch_real_data.py:168-205 | An exception is raised exactly when some hospital row's bed count does not convert to an integer. It is the exception of the first such hospital in list order: `ValueError` for a non-integer, `TypeError` for null. Otherwise the result is the top-10 hospital list and the top-10 radiology list. |
| FetchRealData.ProjecoesPadrao | src/python/fetch_real_data.py:184-199 | Every projected field is the row's own value, or the stated default when the key is missing. A missing bed count is 0. |
| FetchRealData.TopHospitais | src/python/fetch_real_data.py:179-188 | At most 10 hospitals are listed, and never more than there are input rows. |
| FetchRealData.TopRadiologia | src/python/fetch_real_data.py:191-200 | At most 10 radiology units are listed, and never more than there are input rows. |
| FetchRealData.TopHospitaisProperties | src/python/fetch_real_data.py:179-188 | The list has `min(10, #hospitals)` entries, each projected from a HOSPITAL row of the input. Beds are non-increasing. No hospital left out has more beds than a listed one. Hospitals with equal beds keep their input order. The sorted rows are a permutation of the hospital rows. |
| FetchRealData.TopRadiologiaProperties | src/python/fetch_real_data.py:191-200 | The list has `min(10, #matches)` entries, each from an input row whose upper-cased services contain RADIOLOGIA. Names are in ascending order. The services field is the row's own, so 'Não Informado' never appears. |
| FetchRealData.ClassIsSameBeds | src/python/fetch_real_data.py:181 | Rows equivalent under the bed order are exactly the rows with the same bed count. |
| FetchRealData.MaisLeitosIsStrictWeakOrder | src/python/fetch_real_data.py:181 | "More beds first" is a strict weak order. |
| FetchRealData.NomeAntesIsStrictWeakOrder | src/python/fetch_real_data.py:193 | "Smaller name first", with a missing name read as "", is a strict weak order. |
| FetchRealData.EstruturarDadosEducacaoReais | src/python/fetch_real_data.py:208-222 | Each of the three education fields is the payload's value when present and the integer 0 otherwise. The illiteracy rate is passed through unchanged. |
| GenerateMockData.NatToStringInjective | src/python/generate_mock_data.py:124 | Different numbers have different decimal renderings. |
| GenerateMockData.RotuloInjective | src/python/generate_mock_data.py:116 | Two closed bands with the same "<faixa> anos" label have the same bounds. |
| GenerateMockData.MarkerInClosed | src/python/generate_mock_data.py:124 | For a two-digit `i`, the marker "i-" occurs in a closed band's label exactly when the band starts at `i`. |
| GenerateMockData.ChildTestOnClosed | src/python/generate_mock_data.py:123 | A closed band passes the children test exactly when it is 0-4, 5-9 or 10-14. |
| GenerateMockData.MarkerTestsOnClosed | src/python/generate_mock_data.py:124-125 | A closed band below 100 passes the PEA test exactly when it starts in 15..59, and the elderly test exactly when it starts in 60..79. |
| GenerateMockData.TestsOnOpen | src/python/generate_mock_data.py:125 | The "80+ anos" band is elderly and neither child nor PEA. |
| GenerateMockData.BandsPartitioned | src/python/generate_mock_data.py:105-125 | Each of the 17 bands passes exactly one of the three tests: the one of its own group. |
| GenerateMockData.GroupsByPosition | src/python/generate_mock_data.py:105-111 | The first 3 bands are children, the next 9 are PEA and the last 5 are elderly. |
| GenerateMockData.PiramideDe | src/python/generate_mock_data.py:114-117 | A pyramid has two entries per band. |
| GenerateMockData.PiramideDeAt | src/python/generate_mock_data.py:114-117 | The pyramid of n bands has 2n entries. Entry 2k is band k's men and entry 2k+1 is its women, with the same label. |
| GenerateMockData.GerarPiramideEtaria | src/python/generate_mock_data.py:102-119 | There are exactly 34 entries. For each of the 17 bands in listed order there is a 'Homens' entry, then a 'Mulheres' entry, both labelled "<faixa> anos". |
| GenerateMockData.CalcularIndicesDemograficos | src/python/generate_mock_data.py:121-130 | Both indices are 0 when the PEA sum is not positive. Otherwise they are the children and elderly sums divided by the PEA sum. |
| GenerateMockData.Soma | src/python/generate_mock_data.py:123-125 | When no entry has a negative population, a group's sum is at least 0 and at most the population of the whole pyramid. |
| GenerateMockData.SomaPiramideDe | src/python/generate_mock_data.py:123-125 | A group's sum over a generated pyramid counts both sexes of exactly the bands of that group. |
| GenerateMockData.SomaTotalPiramideDe | src/python/generate_mock_data.py:114-117 | The pyramid's total population is the sum, over its bands, of men plus women. |
| GenerateMockData.GroupSumsPartitionPyramid | src/python/generate_mock_data.py:123-125 | The three sums cover bands 0-4..10-14, 15-19..55-59 and 60-64..80+ respectively. Together they count every entry of the pyramid exactly once. |
| GenerateMockData.GerarDadosCidade | src/python/generate_mock_data.py:132-203 | The record carries the city's code, name and population, the state key and the state's population. In each of its three comparisons, each status is "Acima" exactly when the municipal value is strictly greater than that reference. |
| GenerateMockData.StatusRule | src/python/generate_mock_data.py:165-166 | In every comparison of a city record, the status is "Acima" exactly when the municipal value is strictly greater than the reference. A tie gives "Abaixo". |
| GenerateMockData.DadosDoEstado | src/python/generate_mock_data.py:212-213 | One record per city of the state. |
| GenerateMockData.TodosDados | src/python/generate_mock_data.py:206-215 | A failure names a state key that has no reference data. |
| GenerateMockData.GerarTodosDados | src/python/generate_mock_data.py:206-215 | The outcome is the specification `TodosDados`. It raises exactly when some state key has no reference data. On success there is one record per (state, city) pair. |
| GenerateMockData.TodosDadosPrefix | src/python/generate_mock_data.py:210-211 | A `KeyError` on a prefix of the state table is the outcome of the whole table. |
| GenerateMockData.TodosDadosFailure | src/python/generate_mock_data.py:210-211 | Generation fails exactly when some state has no reference data, and it names the first such state. |
| GenerateMockData.TodosDadosLength | src/python/generate_mock_data.py:210-213 | On success there are as many records as cities in the table. |
| GenerateMockData.TodosDadosAt | src/python/generate_mock_data.py:210-213 | City j of state i gives the record at position (cities of earlier states) + j, in state-then-city order. Its `uf_sigla` is the owning state and its code is the city's. |
| GenerateMockData.ChavesDaTabelaConhecidas | src/python/generate_mock_data.py:33-100 | Every state key of `CIDADES_POR_ESTADO` has reference data in `DADOS_ESTADUAIS`. |
| GenerateMockData.TotalDaTabela | src/python/generate_mock_data.py:33-100 | `CIDADES_POR_ESTADO` lists 46 cities. |
| GenerateMockData.TodosDadosDaTabela | src/python/generate_mock_data.py:206-215 | On `CIDADES_POR_ESTADO`, for every draw and every per-band population, no `KeyError` is raised and there are 46 records. |
| App.DoEstadoMembers | src/node/public/app.js:10-15 | A state's cities in the input are exactly the input cities with that `uf`. |
| App.Agrupar | src/node/public/app.js:10-15 | The pushes keep every existing key, and every input city's state becomes a key. |
| App.AgruparBaldes | src/node/public/app.js:10-15 | After the pushes, every bucket is the old bucket followed by that state's input cities in order. A key exists exactly when it existed before or some city has it. |
| App.NovasChavesIndexa | src/node/public/app.js:10-15 | The list of keys in creation order stays in step with the dictionary: each key once, and only keys of the dictionary. |
| App.AgruparTamanhos | src/node/public/app.js:10-15 | Grouping adds exactly the number of input cities to the total bucket size. |
| App.AgruparDoZero | src/node/public/app.js:10-15 | Starting from `{}`, every city is in its state's bucket. The keys are exactly the states that occur. Each bucket is its state's cities in input order. The bucket sizes sum to the number of cities, so nothing is dropped or duplicated. |
| App.PorNomeIsStrictWeakOrder | src/node/public/app.js:19 | Comparing cities by name under `collate` is a strict weak order. |
| App.Ordenar | src/node/public/app.js:18-20 | Sorting the buckets keeps the keys, and each bucket is a permutation of the old one. |
| App.OrdenarBaldes | src/node/public/app.js:18-20 | The sort pass keeps the keys. Every bucket ends up ordered by name and is a permutation of the cities pushed into it. Cities whose names compare equal keep their order. |
| App.EstadosOrdenados | src/node/public/app.js:39 | The sorted state keys are the bucket keys, each once, in strictly increasing order. |
| App.Opcoes | src/node/public/app.js:59-64 | One option per city of the bucket, in order: its value is the IBGE code and its text is the name. |
| App.Painel.constructor | src/node/public/app.js:2 | The page starts with an empty dictionary and no options. The city select and the search button are disabled, no error is shown and nothing has been requested. |
| App.Painel.AgruparCidades | src/node/public/app.js:10-15 | The dictionary becomes the grouping of the cities into the old buckets, and the key list gains the new states in order. Nothing else on the page changes. |
| App.Painel.OrdenarCidades | src/node/public/app.js:18-20 | Every bucket is replaced by its sort by name. Nothing else on the page changes. |
| App.Painel.InicializarEstados | src/node/public/app.js:38-46 | The state select gains the bucket keys in sorted order. Nothing else on the page changes. |
| App.Painel.CarregarCidades | src/node/public/app.js:4-26 | The dictionary becomes the buckets grouped, then sorted by name. The state select gains the sorted keys. Nothing else on the page changes. |
| App.Painel.OnEstadoChange | src/node/public/app.js:49-66 | The search button is always disabled afterwards. The city select is disabled exactly when the chosen state is empty, and holds the placeholder followed by that state's cities in bucket order. A non-empty state without a bucket raises. |
| App.Painel.OnMunicipioChange | src/node/public/app.js:69-71 | The search button is enabled exactly when the chosen city is non-empty. |
| App.Painel.OnBuscarClick | src/node/public/app.js:74-89 | With no city selected, the error message is shown and nothing is requested. Otherwise the results box is shown, the error box is hidden and exactly one request for that city's code is issued. |
| App.LinhasPiramide | src/node/public/app.js:156-168 | There is one row per 'Homens' entry. |
| App.LinhaNaPosicao | src/node/public/app.js:156-168 | The 'Homens' entry at position i gives the row numbered by the 'Homens' entries before it. That row has the entry's band and count, and the next entry's count as women, or 'N/A' when the entry is the last. |
| App.LinhasPorHomens | src/node/public/app.js:156-168 | There is one row per 'Homens' entry. Each 'Homens' entry gives its row in order, with the next entry's count as women. A row shows 'N/A' for women only when its men's entry is the last entry. |
| App.LinhasDePiramideDe | src/node/public/app.js:156-168 | On a generated pyramid, row k is band k with its men's count and, from the entry after it, its women's count. |
| App.LinhasDaPiramideGerada | src/node/public/app.js:156-168 | The table of a generated pyramid has 17 rows, one per band in order, each with both counts and no 'N/A'. |
| Server.TrimStart | src/node/server.js:37 | Leading white space is removed, so the rest does not start with white space. |
| Server.DigitPrefix | src/node/server.js:37 | The digit run taken by `parseInt` consists of digits of the radix. |
| Server.DigitPrefixLongest | src/node/server.js:37 | The digit run is a prefix of the text, and the longest prefix made of digits. |
| Server.ValueOfNatToString | src/node/server.js:37 | The decimal rendering of n reads back as n. |
| Server.ValueOf | src/node/server.js:37 | A run of digits has a non-negative value. |
| Server.ParseIntDecimal | src/node/server.js:37 | Leading white space, then a decimal integer, then text not starting with a digit, parses to that integer. |
| Server.ParseInt | src/node/server.js:37 | Text that is empty after the leading white space gives NaN. A negative result only comes from text whose first character after the white space is '-'. Such text never gives a positive result. |
| Server.ParseIntNaNExamples | src/node/server.js:37 | "", "abc", " -" and "0x" parse to NaN. |
| Server.ParseIntHexExample | src/node/server.js:37 | "0x1F" parses to 31. |
| Server.ParseIntStopsExample | src/node/server.js:37 | "12.5" parses to 12. |
| Server.FindFirst | src/node/server.js:40 | `find` returns nothing exactly when no record's code equals the parsed code. Otherwise it returns the first record that matches. |
| Server.Find | src/node/server.js:40 | A record that is found is one of the records, and its code equals the parsed code. |
| Server.ResponderContract | src/node/server.js:36-54 | Success exactly when some record's code equals the parsed code. On success: HTTP 200, the first matching record, and the success message. Otherwise: HTTP 404, status 'error', and a message ending with the code as text ("NaN" when unparsable). |
| Server.Responder | src/node/server.js:36-54 | HTTP 200 exactly when the status is 'success' and a record is returned. Otherwise the response is a 404 with status 'error' and no record. A returned record is one of the records and carries the parsed code. |
| Server.NaNIsNotFound | src/node/server.js:37-53 | A parameter with no leading number gives a 404 whose message ends in "NaN". |
| Server.FixtureCodesDistinct | src/node/server.js:9-33 | The two fixture records have distinct IBGE codes, so a lookup is unambiguous. |
| Server.FixtureCnpjsNormalized | src/node/server.js:16-27 | The fixture CNPJs are fourteen digits each, the form that `normalize_cnpj` produces. |
| Server.CnpjFixo | src/python/etl_utils.py:25-26 | Any string of fourteen digits is a fixed point of `normalize_cnpj`, so the fixture CNPJs are already normalised. |
| Server.ParseSJC | src/node/server.js:12 | "3549904" parses to 3549904. |
| Server.ParseSP | src/node/server.js:23 | "3550308" parses to 3550308. |
| Server.FindFixture | src/node/server.js:40 | Looking up each fixture code finds its own record. |
| Server.ResponderExamples | src/node/server.js:36-54 | "3549904" and "3550308" return their records with HTTP 200. "abc" returns the 404 whose message ends in "NaN". |

## Left out

- The HTTP fetchers (`DEMASFetcher`, `INEPFetcher`, `IBGESIDRAFetcher`) and `fetch_all_real_data` are not modelled: they are network I/O. Their payloads are the inputs of the processing functions here.
- `download_cnes`, `geocode_address` and `main.py` are not modelled: they do file writes, HTTP and printing.
- Floating-point arithmetic is not modelled:
  - The per-band population `int(int(total * p) * 0.49)` is an abstract parameter, and so is the one for women.
  - Indices and benchmark values are exact reals.
  - `round(...)`, `toFixed` and `toLocaleString` are not modelled.
  - The fixture's `razao_leitos_por_mil` is kept as the literal text it renders to.
- `random.uniform` and `random.randint` are not modelled: the draws are a parameter indexed by the record's position.
- Only part of each record from `gerar_dados_cidade` is modelled: identity, populations, pyramid, indices and the three benchmark comparisons. Not modelled:
  - the percentages;
  - `leitos_total`;
  - the public/private split;
  - the top-5 list;
  - beneficiaries;
  - the employment figures;
  - the unemployment comparison, which has no status.
- GenerateMockData.StatusRule: the status is compared on the unrounded municipal value, as in the source. The record's displayed municipal value is rounded in the source, and that rounding is not modelled.
- FetchRealData.CalcularIndicesDemograficosReais: the ratios are exact quotients; `round(..., 4)` is not modelled.
- GenerateMockData.CalcularIndicesDemograficos: the ratios are exact quotients; `round(..., 2)` is not modelled.
- The `faixas` dictionary in `calcular_indices_demograficos_reais` is never read, and the `if pea_pop == 0: pass` branch does nothing. Neither affects the result.
- Python's `int(...)` on a field is abstracted as `Num`. How a string or float is parsed into an integer is not modelled. Only the outcome is: the integer, `ValueError` or `TypeError`.
- In `estruturar_estabelecimentos_reais`, text fields are strings or absent. A null or non-string value in one is not modelled:
  - a null `servicos` makes `.upper()` raise `AttributeError` in the radiology filter;
  - a null `nome` on a radiology row makes the name sort raise `TypeError` once two or more such rows are compared;
  - null values of `nome`, `natureza_juridica` and `tipo_estabelecimento` are copied into the output, where the model only has strings.
- In `calcular_indices_demograficos_reais`, a `D4N` age-group name is a string or absent. A non-string value is not modelled.
- `\D` and `str.upper()` are modelled on ASCII. Python's are Unicode-aware: non-ASCII digits count as digits, and non-ASCII letters are upper-cased.
- `localeCompare` is an abstract strict weak order. The default `sort()` of state keys is modelled as code-point order. JavaScript compares UTF-16 code units, which agrees for the two-letter state keys.
- Server.ParseInt: the value is the exact integer. JavaScript numbers lose precision beyond 2^53, and a value of 10^21 or more renders in exponent form in the 404 message.
- Server.ParseIntDecimal: the lemma leaves out a "0" followed by "x" or "X", which `parseInt` reads as a hexadecimal prefix. `Server.ParseIntHexExample` and `Server.ParseIntNaNExamples` cover that prefix.
- The DOM is not modelled: element creation, `innerHTML` templates, `exibirResultados` and the OpenAI analysis. Only the data the handlers produce and the enable/disable and visibility flags are kept.
- `fetch`, the async flow and the handling of the market-intelligence response are not modelled. `OnBuscarClick` records the requested URL.
- The initial page markup is not part of the source files. The constructor assumes the city select and the search button start disabled.
- JavaScript object keys are a Dafny map. Keys inherited from `Object.prototype` are not modelled.
- The Express setup, middleware, the root endpoint and `app.listen` are not modelled.
- The JSON file output in the `__main__` blocks is not modelled.
