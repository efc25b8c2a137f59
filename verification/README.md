# Reports screen and dashboard of the production front end

This project models the two pages of the production-tracking front end that do real computation.

**The reports screen** (`frontend/src/pages/Relatorios.jsx`) covers:

- **Filters.** The screen filters production records (*apontamentos*) and downtime records (*paradas*) by date range, machine and operator.
- **Sorting.** It sorts the records newest first.
- **Report rows.** It builds the rows of seven report types:
  - production;
  - downtime;
  - performance per operator and machine;
  - OEE per day and machine;
  - shipping estimate per tool;
  - productivity per item;
  - traceability, with one row per bundle (*amarrado*) or external lot.
- **Compact traceability.** It can compact the traceability rows to one row per record, merging the bundle columns.
- **Export.** It writes the rows as a `;`-separated CSV file with a byte-order mark, under a file name built from the report's label and a timestamp.
- **Preview.** It shows an on-screen preview with its own aggregations, which differ from the export in places.
- **Keyed stores.** The preview has a store of check marks and a store of manual adjustments.

**The dashboard** (`frontend/src/pages/Dashboard.jsx`) computes:

- today's production;
- today's downtime as `hh:mm`;
- finished and pending orders;
- the orders in execution, with their progress, machine and operator, at most five.

## How the model is built

- **Values and functions.** Pure computations become functions whose contracts are proved: a row builder, a filter, a key normaliser.
- **Loops.** Each loop of the source that fills a map or a list is a `method` with a loop. It is proved equal to a specification function, and the lemmas are about that function. These are:
  - the machine map;
  - the tool-configuration map;
  - the per-day quantities;
  - the traceability explosion;
  - the compaction;
  - the per-order aggregation;
  - the dashboard's machine map;
  - the tool-code scan.
- **Classes.** The two keyed stores of the preview, updated in place, are classes: `Armazenamento.Sobreposicoes` and `Armazenamento.Marcacoes`.
- **Rows.** A report row is an ordered list of `(column, cell)` pairs. A cell is `Null`, a string or an integer. This keeps the column order that the CSV header depends on.
- **Timestamps.** A timestamp is given as an `Instant`: its raw text, its milliseconds, and the day and clock strings that the platform's date library derives from it. A missing or empty timestamp is `None`.
- **Quantities.** Quantities are already-parsed integers.
- **Grouping keys.** Grouping keys are the source's `__`-joined strings, so two distinct pairs that join to the same key fall into the same bucket, as they do in the source.
- **Order of groups.** Groups come out in first-seen order.

## Model

| member | source | states |
|---|---|---|
| Base.Or | frontend/src/pages/Relatorios.jsx:176 | `a \|\| b` on strings: the first operand unless it is empty, then the second |
| Base.FirstNonEmpty | frontend/src/pages/Relatorios.jsx:177 | a chain of `\|\|`: the first non-empty value of the chain, the fallback when all are empty, never empty unless the fallback is |
| Base.Filtrar | frontend/src/pages/Relatorios.jsx:430 | `filter`: an order-preserving subsequence holding exactly the elements that pass, no longer than the input, and as long as the input exactly when all pass |
| Base.FiltrarMultiplicidade | frontend/src/pages/Relatorios.jsx:430-437 | `filter` keeps every passing element as often as it occurs and drops every other one |
| Base.FiltrarTodos | frontend/src/pages/Relatorios.jsx:430-437 | when every element passes, the filtered list is the input itself |
| Base.Achar | frontend/src/pages/Relatorios.jsx:275 | `find`: `None` exactly when nothing matches, otherwise the first match |
| Base.SomarSeFiltrado | frontend/src/pages/Dashboard.jsx:16-21 | a `reduce` that adds the matching elements' values equals the sum over the filtered list |
| Records.CodigoProduto | frontend/src/pages/Relatorios.jsx:231 | `a.produto \|\| a.codigoPerfil`: the product when it is not empty, else the profile code |
| Text.ToUpper | frontend/src/pages/Relatorios.jsx:395 | same length, each letter upper-cased, other characters unchanged |
| Text.ToLower | frontend/src/pages/Relatorios.jsx:344 | same length, each letter lower-cased, other characters unchanged |
| Text.Trim | frontend/src/pages/Relatorios.jsx:34 | no white space at either end; empty exactly when the input is all white space; a string already trimmed is returned unchanged |
| Text.TrimIdempotent | frontend/src/pages/Relatorios.jsx:34 | trimming twice is trimming once |
| Text.TrimRecorte | frontend/src/pages/Relatorios.jsx:34-35 | the trimmed text is the contiguous piece of the input that starts where the leading white space ends, with only white space before and after it |
| Text.CollapseSpaces | frontend/src/pages/Relatorios.jsx:341 | `replace(/\s+/g, c)`: no white space is left; a string without white space is unchanged |
| Text.CollapseSpacesRun | frontend/src/pages/Relatorios.jsx:341 | a run of white space between a word and the rest is replaced by exactly one `c` |
| Text.CollapseSpacesWords | frontend/src/pages/Relatorios.jsx:341 | words without white space joined by single spaces come out joined by `c` instead |
| Text.SplitJoin | frontend/src/pages/Relatorios.jsx:38-39 | splitting a joined list on its separator gives the list back when no part holds the separator's first character |
| Text.SplitSemSeparador | frontend/src/pages/Relatorios.jsx:38 | no piece of `split(', ')` contains ", " |
| Text.SplitJoinVirgula | frontend/src/pages/Relatorios.jsx:38-39 | splitting a `join(', ')` on ", " gives the list back when no part contains ", " |
| Text.Dedup | frontend/src/pages/Relatorios.jsx:38-39 | `Array.from(new Set(xs))`: the same members, no repeats, first element kept first |
| Text.DedupOrdem | frontend/src/pages/Relatorios.jsx:38-39 | `new Set` keeps insertion order: the kept values appear in the order of their first occurrence in the input |
| Text.PadStart | frontend/src/pages/Dashboard.jsx:36-37 | `padStart`: the length is the larger of the two, the input is a suffix, and the padding is the pad character |
| Text.LessTransitive | frontend/src/pages/Relatorios.jsx:226 | the string order used for the date and tool sorts is transitive |
| Text.LessTrichotomy | frontend/src/pages/Relatorios.jsx:226 | the same order is total and asymmetric |
| Text.NatToString | frontend/src/pages/Relatorios.jsx:345 | decimal digits only, no leading zero unless the number is 0 |
| Text.DigitsValueOfNatToString | frontend/src/pages/Relatorios.jsx:345 | the decimal text of `n` reads back as `n` |
| Text.NatToStringInjetiva | frontend/src/pages/Relatorios.jsx:345 | distinct numbers have distinct decimal texts |
| Text.IntToStringInjetiva | frontend/src/pages/Relatorios.jsx:512 | distinct integers, of either sign, have distinct texts |
| Text.LeadingDigits | frontend/src/pages/Relatorios.jsx:387 | `/^\d+/`: the longest all-digit prefix; the next character, if any, is not a digit |
| Tempo.ArredondarDiv | frontend/src/pages/Relatorios.jsx:481 | `Math.round(x / d)`: the quotient is within half of `d` of `x` |
| Tempo.DuracaoMin | frontend/src/pages/Relatorios.jsx:476-483 | `None` exactly when a timestamp is missing; otherwise the rounded minutes between them, clamped at 0 |
| Tempo.DuracaoInvariantePorDeslocamento | frontend/src/pages/Relatorios.jsx:476-483 | shifting both timestamps by the same amount leaves the duration unchanged |
| Tempo.ToISODate | frontend/src/pages/Relatorios.jsx:356-359 | a day exactly when a timestamp is present |
| Tempo.DiaOuTraco | frontend/src/pages/Relatorios.jsx:212 | `toISODate(x) \|\| '-'`: "-" for a missing timestamp |
| Tempo.BrDate | frontend/src/pages/Relatorios.jsx:360-363 | "" for a missing timestamp |
| Tempo.BrTime | frontend/src/pages/Relatorios.jsx:364-367 | "" for a missing timestamp |
| Tempo.BrStampOuTraco | frontend/src/pages/Relatorios.jsx:192-193 | "-" for a missing timestamp |
| Tempo.Centesimos | frontend/src/pages/Relatorios.jsx:207 | the hundredths `toFixed(2)` prints: within half a unit of 100·\|num/den\| |
| Tempo.Fixed2Valor | frontend/src/pages/Relatorios.jsx:207 | `toFixed(2)`: a sign exactly for negatives, an integer part without leading zeros, a point and two digits, reading back as the rounded hundredths |
| Tempo.Fixed2Exemplos | frontend/src/pages/Relatorios.jsx:250 | 1/8 prints "0.13", 600/90 prints "6.67", a tiny negative prints "-0.00" |
| Tempo.PorHora | frontend/src/pages/Relatorios.jsx:207 | the per-hour rate is "0.00" when there are no minutes |
| CodeParser.AlnumRun | frontend/src/pages/Relatorios.jsx:396-397 | `[A-Z0-9]+`: the longest alphanumeric prefix, stopping at the first other character |
| CodeParser.Casar | frontend/src/pages/Relatorios.jsx:396-405 | a match exactly when two letters and an alphanumeric start the code; the three-letter reading exactly when three letters and an alphanumeric start it, with those letters and the alphanumeric run after them; otherwise the two-letter reading, with the first two letters and the run after them |
| CodeParser.CorrigirOcr | frontend/src/pages/Relatorios.jsx:409 | `O` reads as `0`, everything else as itself |
| CodeParser.Leitura | frontend/src/pages/Relatorios.jsx:408-409 | a character contributes one digit exactly when it is a digit or `O` |
| CodeParser.DigitosConcat | frontend/src/pages/Relatorios.jsx:406-412 | the digits read from a concatenation are the two parts' digits concatenated |
| CodeParser.Numeros | frontend/src/pages/Relatorios.jsx:406-413 | exactly `qtd` digits |
| CodeParser.NumerosLidos | frontend/src/pages/Relatorios.jsx:406-413 | the k-th digit is the k-th digit read, or `0` once they run out (`padEnd`) |
| CodeParser.LerNumeros | frontend/src/pages/Relatorios.jsx:406-413 | the scan loop with its early `break` yields the specified digits |
| CodeParser.ExtrairFerramenta | frontend/src/pages/Relatorios.jsx:392-414 | the tool code is "" exactly when the product is empty or has no letter prefix, otherwise letters, a hyphen and three or four digits |
| CodeParser.FerramentaFormato | frontend/src/pages/Relatorios.jsx:392-414 | the same for the specification function |
| CodeParser.FerramentaTresLetras | frontend/src/pages/Relatorios.jsx:396-401 | three letters then three digits give `LLL-ddd` |
| CodeParser.FerramentaDuasLetras | frontend/src/pages/Relatorios.jsx:402-405 | two letters then four digits give `LL-dddd` |
| CodeParser.FerramentaTresLetrasSemSequencia | frontend/src/pages/Relatorios.jsx:396-414 | a code of exactly three letters falls to the two-letter pattern and gives `LL-0000` |
| CodeParser.ExtrairComprimentoAcabado | frontend/src/pages/Relatorios.jsx:384-390 | "" exactly when the product is empty, has at most eight characters, or has no digit at position 8 |
| CodeParser.ComprimentoValor | frontend/src/pages/Relatorios.jsx:384-390 | otherwise `<n> mm`, with `n` without leading zeros and equal to the digits that start at position 8 |
| CodeParser.ComprimentoExemplos | frontend/src/pages/Relatorios.jsx:384-390 | "ABCDEFGH0850X" gives "850 mm"; short codes and a letter at position 8 give "" |
| CodeParser.NormalizarChave | frontend/src/pages/Relatorios.jsx:375 | `toLowerCase().replace(/[^a-z0-9]/g, '')`: only lower-case letters and digits are left, never more characters than the input |
| CodeParser.NormalizarCaractere | frontend/src/pages/Relatorios.jsx:375 | per character: a lower-case letter or digit is kept, an upper-case letter becomes its lower case, anything else is dropped |
| CodeParser.NormalizarMantem | frontend/src/pages/Relatorios.jsx:375 | a name of lower-case letters and digits only is its own key |
| CodeParser.NormalizarDescarta | frontend/src/pages/Relatorios.jsx:375 | a name with no letter and no digit has the empty key |
| CodeParser.NormalizarIgnoraCaixa | frontend/src/pages/Relatorios.jsx:375-377 | the normalised key ignores letter case |
| CodeParser.NormalizarIgnoraSeparador | frontend/src/pages/Relatorios.jsx:375-377 | and ignores separators |
| CodeParser.GetCampoOriginalLote | frontend/src/pages/Relatorios.jsx:372-382 | the value of the first field whose normalised name matches, "" when none does |
| Filtragem.NoPeriodoInclusivo | frontend/src/pages/Relatorios.jsx:428-433 | a record passes the date range exactly when it has a day whenever a bound is set and that day lies within the bounds, inclusive |
| Filtragem.ApontamentosFiltrados | frontend/src/pages/Relatorios.jsx:427-438 | an order-preserving subsequence holding exactly the records that pass the dates, machine and operator |
| Filtragem.ApontamentosMultiplicidade | frontend/src/pages/Relatorios.jsx:427-438 | each passing record is kept as often as it occurs, every other one dropped |
| Filtragem.SemFiltroNadaMuda | frontend/src/pages/Relatorios.jsx:430-437 | with no filter set, every record is kept |
| Filtragem.ApontamentosIgnoramFormato | frontend/src/pages/Relatorios.jsx:427-438 | the file format does not change the filtered records |
| Filtragem.Normalizar | frontend/src/pages/Relatorios.jsx:453-460 | `inicio \|\| inicio_timestamp` and `fim \|\| fim_timestamp`; the reason is `motivo_parada`, else `motivoParada`, else "-", and the type likewise from `tipo_parada`, `tipoParada`, "-"; both never empty; the raw record is kept |
| Filtragem.Paradas | frontend/src/pages/Relatorios.jsx:453-461 | `map`: one record per raw record, in order, each the normalisation of its raw record |
| Filtragem.ParadasFiltradas | frontend/src/pages/Relatorios.jsx:463-474 | an order-preserving subsequence holding exactly the downtime records that pass the dates and machine |
| Filtragem.ParadasMultiplicidade | frontend/src/pages/Relatorios.jsx:463-474 | each passing downtime record is kept as often as it occurs, every other one dropped |
| Filtragem.ParadasIgnoramOperador | frontend/src/pages/Relatorios.jsx:471 | the operator filter does not apply to downtime |
| Filtragem.ParadasIgnoramFormato | frontend/src/pages/Relatorios.jsx:463-474 | nor does the file format |
| Ordenacao.OrdenarDesc | frontend/src/pages/Relatorios.jsx:443-447 | a permutation of the input, non-increasing in the key |
| Ordenacao.OrdenarDescEstavel | frontend/src/pages/Relatorios.jsx:443-447 | stable: elements with equal keys keep their relative order |
| Ordenacao.OrdenarAsc | frontend/src/pages/Relatorios.jsx:226 | a permutation of the input, non-decreasing in the text key |
| Ordenacao.OrdenarAscEstavel | frontend/src/pages/Relatorios.jsx:226 | stable for equal text keys |
| Ordenacao.ApontamentosOrdenados | frontend/src/pages/Relatorios.jsx:441-449 | a permutation of the filtered records |
| Ordenacao.ApontamentosRecentesPrimeiro | frontend/src/pages/Relatorios.jsx:443-447 | newest start first, a missing start counting as 0 |
| Agrupamento.AgruparMetodo | frontend/src/pages/Relatorios.jsx:198-206 | the grouping loop yields the specified buckets in first-seen order |
| Agrupamento.AgruparChaves | frontend/src/pages/Relatorios.jsx:197-207 | the bucket keys are distinct, every input key has a bucket, and every bucket's key occurs in the input |
| Agrupamento.ChavesDaTabela | frontend/src/pages/Relatorios.jsx:202 | a key has a bucket exactly when some contribution carries it |
| Agrupamento.BucketSoma | frontend/src/pages/Relatorios.jsx:203-205 | a bucket's quantity and minutes are the sums over the contributions with its key |
| Agrupamento.BucketRotulos | frontend/src/pages/Relatorios.jsx:202 | a bucket's labels are those of the first contribution with its key |
| Agrupamento.AgruparRotulo | frontend/src/pages/Relatorios.jsx:202 | every bucket's labels come from some contribution with its key |
| Agrupamento.AgruparConserva | frontend/src/pages/Relatorios.jsx:197-207 | grouping preserves the total of every measure |
| Agrupamento.AcumularValida | frontend/src/pages/Relatorios.jsx:197-206 | the accumulated table keeps distinct keys in order, each with its bucket |
| Linhas.Get | frontend/src/pages/Relatorios.jsx:156 | `r[k]`: absent exactly when the row has no such column, otherwise a value the row holds for it |
| Linhas.GetPrimeiro | frontend/src/pages/Relatorios.jsx:156 | the value read is the first one stored under that column |
| Linhas.Montar | frontend/src/pages/Relatorios.jsx:172-185 | an object literal: the columns in the order written, each with its value |
| Linhas.LerMontado | frontend/src/pages/Relatorios.jsx:172-185 | reading a column of an object literal gives the value written there |
| Linhas.Put | frontend/src/pages/Relatorios.jsx:41 | `r[k] = v`: the column then reads `v` |
| Linhas.PutChaves | frontend/src/pages/Relatorios.jsx:41-51 | an existing column keeps its place; a new one is appended at the end |
| Linhas.PutOutras | frontend/src/pages/Relatorios.jsx:41-51 | the other columns are unchanged |
| Linhas.PutDistintas | frontend/src/pages/Relatorios.jsx:41-51 | columns stay distinct |
| Linhas.TextoSeVerdadeiro | frontend/src/pages/Relatorios.jsx:34 | `a ? String(a) : ''` |
| Csv.Cabecalho | frontend/src/pages/Relatorios.jsx:147-149 | the header is every column of every row, each once, in the order in which the columns first appear row by row |
| Csv.CabecalhoUniforme | frontend/src/pages/Relatorios.jsx:147-149 | when all rows have the same columns, the header is those columns in order |
| Csv.TrocarQuebras | frontend/src/pages/Relatorios.jsx:152 | no line break is left; text without one is unchanged |
| Csv.Esc | frontend/src/pages/Relatorios.jsx:150-155 | `null` prints as ""; a cell is quoted exactly when it holds `;` or `"`; otherwise it is the text with line breaks replaced |
| Csv.ReduzirDuplicar | frontend/src/pages/Relatorios.jsx:153 | halving doubled quotes undoes the doubling |
| Csv.DesescaparEsc | frontend/src/pages/Relatorios.jsx:150-155 | un-escaping a cell gives back its text with line breaks replaced |
| Csv.Celulas | frontend/src/pages/Relatorios.jsx:156 | one cell per header column, "" for a column the row lacks, no line break in any |
| Csv.CelulaLida | frontend/src/pages/Relatorios.jsx:156 | each cell un-escapes to the row's value for its column |
| Csv.LinhasDoArquivo | frontend/src/pages/Relatorios.jsx:156 | the header line, then one line per row |
| Csv.Arquivo | frontend/src/pages/Relatorios.jsx:145-157 | no file for no rows; otherwise the text starts with the byte-order mark |
| Csv.ArquivoLinhas | frontend/src/pages/Relatorios.jsx:156-157 | the file splits on line breaks into exactly the header and one line per row |
| Csv.LinhaSemQuebra | frontend/src/pages/Relatorios.jsx:156 | no data line contains a line break |
| Compactacao.Fichas | frontend/src/pages/Relatorios.jsx:38 | `split(', ').filter(Boolean)`: no empty token |
| Compactacao.Concat | frontend/src/pages/Relatorios.jsx:33-39 | the trimmed other side when one side is empty |
| Compactacao.ConcatRepetido | frontend/src/pages/Relatorios.jsx:33-39 | a value merged with itself stays as it is |
| Compactacao.ConcatDistintos | frontend/src/pages/Relatorios.jsx:33-39 | two distinct simple values are joined with ", " |
| Compactacao.ConcatFichas | frontend/src/pages/Relatorios.jsx:33-39 | when both trimmed sides are non-empty, the merged value's tokens are the two sides' tokens with repeats removed, first seen first, so a token is in the result exactly when it is in either side |
| Compactacao.CamposDe | frontend/src/pages/Relatorios.jsx:41-51 | the merged columns never include `ID_Apont` |
| Compactacao.MesclarCamposOutras | frontend/src/pages/Relatorios.jsx:41-51 | merging leaves every other column as it was |
| Compactacao.MesclarChave | frontend/src/pages/Relatorios.jsx:41-51 | merging keeps the row's key |
| Compactacao.CompactarMetodo | frontend/src/pages/Relatorios.jsx:26-55 | the compaction loop yields the specified rows |
| Compactacao.CompactarDeOrdem | frontend/src/pages/Relatorios.jsx:28-54 | the keys come out in first-seen order without repeats |
| Compactacao.CompactarChaves | frontend/src/pages/Relatorios.jsx:26-55 | the output's keys are the input's keys with repeats removed |
| Compactacao.CompactarDeNovas | frontend/src/pages/Relatorios.jsx:28-54 | rows with new keys are appended unchanged |
| Compactacao.CompactarDistintas | frontend/src/pages/Relatorios.jsx:26-55 | rows whose keys are all distinct come out unchanged |
| Compactacao.CompactarIdempotente | frontend/src/pages/Relatorios.jsx:26-55 | compacting twice is compacting once |
| Compactacao.ConcatPecas | frontend/src/pages/Relatorios.jsx:33-39 | for cells whose tokens have no surrounding white space, either side possibly empty, a token is in the merged value exactly when it is in one of the sides, and the merged value's tokens are again clean |
| Compactacao.MesclarCamposPecas | frontend/src/pages/Relatorios.jsx:41-51 | merging a row over a list of columns gives a listed column the tokens of both rows and leaves an unlisted one with its own |
| Compactacao.CompactarPecas | frontend/src/pages/Relatorios.jsx:26-55 | in each output row, a merged column holds exactly the tokens that some input row with the same `ID_Apont` has in that column |
| Compactacao.CompactarFixa | frontend/src/pages/Relatorios.jsx:28-53 | in each output row, a column no merge touches reads as in the first input row with the same `ID_Apont` |
| Relatorio.NomeCatalogo | frontend/src/pages/Relatorios.jsx:422 | `m.nome \|\| m.codigo \|\| 'Máquina ' + m.id`: the name when there is one, else the code, else "Máquina " and the id; never empty |
| Relatorio.MaqMap | frontend/src/pages/Relatorios.jsx:418-425 | the catalogue loop yields the specified map |
| Relatorio.MaqMapUltimo | frontend/src/pages/Relatorios.jsx:420-423 | the last machine with an id decides its name |
| Relatorio.MaqMapChaves | frontend/src/pages/Relatorios.jsx:420-423 | every key is some machine's id |
| Relatorio.NomeMaquina | frontend/src/pages/Relatorios.jsx:175 | the catalogue name when there is one, else the raw machine, else "-" |
| Relatorio.PedidoSeqDe | frontend/src/pages/Relatorios.jsx:177 | `ordemTrabalho \|\| ordem_trabalho \|\| pedido_seq \|\| '-'`: the first non-empty of the three, "-" when all are empty |
| Relatorio.NumOuTraco | frontend/src/pages/Relatorios.jsx:183-184 | `x ?? y ?? '-'`: `x` when present, else `y` when present, "-" exactly when both are missing |
| Relatorio.LinhaProducao | frontend/src/pages/Relatorios.jsx:172-185 | a production row has the twelve columns in the source's order |
| Relatorio.QuantidadeProducao | frontend/src/pages/Relatorios.jsx:180 | its `Quantidade` cell is the record's quantity |
| Relatorio.LinhasProducaoColunas | frontend/src/pages/Relatorios.jsx:171-185 | every production row has those columns, and the `Quantidade` column sums to the records' total |
| Relatorio.DuracaoOuTraco | frontend/src/pages/Relatorios.jsx:194 | "-" exactly when a timestamp is missing; with both present, the rounded number of minutes between them (`duracaoMin`), as a number |
| Relatorio.LinhasParadas | frontend/src/pages/Relatorios.jsx:186-195 | one row per downtime record, each with the seven downtime columns |
| Relatorio.ParcelaOeeParada | frontend/src/pages/Relatorios.jsx:220-224 | a downtime record adds no production and no production minutes to its OEE bucket |
| Relatorio.ParcelasParadas | frontend/src/pages/Relatorios.jsx:219-225 | one contribution per downtime record, adding up to no production |
| Relatorio.LinhaDesempenho | frontend/src/pages/Relatorios.jsx:207 | a performance row has its columns and its bucket's production |
| Relatorio.LinhaOee | frontend/src/pages/Relatorios.jsx:215 | an OEE row has its columns and its bucket's production |
| Relatorio.LinhaExpedicao | frontend/src/pages/Relatorios.jsx:234 | a shipping row has its columns and its bucket's quantity |
| Relatorio.LinhaProdutividade | frontend/src/pages/Relatorios.jsx:250 | a productivity row has its columns and its bucket's quantity |
| Relatorio.DesempenhoTotal | frontend/src/pages/Relatorios.jsx:196-208 | the performance report's production column sums to the filtered records' total, with at most one row per record |
| Relatorio.OeeTotal | frontend/src/pages/Relatorios.jsx:209-227 | the OEE report's production column sums to the filtered records' total |
| Relatorio.ExpedicaoTotal | frontend/src/pages/Relatorios.jsx:228-238 | the shipping report sums the quantities of the records that have a tool code, and no row has an empty tool |
| Relatorio.ProdutividadeTotal | frontend/src/pages/Relatorios.jsx:239-251 | the productivity report's quantity column sums to the filtered records' total |
| Rastreabilidade.BaseDe | frontend/src/pages/Relatorios.jsx:255-268 | the base columns in order, `ID_Apont` first with the record's id |
| Rastreabilidade.PedidoESeqPartes | frontend/src/pages/Relatorios.jsx:306 | `order/seq` splits into the order and the sequence |
| Rastreabilidade.OuVazio | frontend/src/pages/Relatorios.jsx:319-320 | `x ?? ''`: a present value is kept as it is, a missing one becomes the text "" |
| Rastreabilidade.NumOuVazio | frontend/src/pages/Relatorios.jsx:293-294 | `Number(x \|\| 0) \|\| ''`: "" exactly for zero, the number itself otherwise |
| Rastreabilidade.ExtraAmarrado | frontend/src/pages/Relatorios.jsx:307-321 | the twelve bundle columns, the tool derived from the bundle's product |
| Rastreabilidade.ExtraLote | frontend/src/pages/Relatorios.jsx:281-295 | the same twelve columns read from a catalogue lot |
| Rastreabilidade.LoteCadastrado | frontend/src/pages/Relatorios.jsx:275-295 | an external lot number is filled from the first catalogue lot whose trimmed number matches it |
| Rastreabilidade.LoteNaoCadastrado | frontend/src/pages/Relatorios.jsx:275-295 | a number no catalogue lot matches gives the base columns followed by twelve empty bundle columns |
| Rastreabilidade.EmpurrarLotes | frontend/src/pages/Relatorios.jsx:274-296 | the lot loop appends one row per external lot number |
| Rastreabilidade.EmpurrarAmarrados | frontend/src/pages/Relatorios.jsx:301-322 | the bundle loop appends one row per bundle |
| Rastreabilidade.Explodir | frontend/src/pages/Relatorios.jsx:252-326 | the record loop yields the specified rows |
| Rastreabilidade.LinhasDoApontamentoForma | frontend/src/pages/Relatorios.jsx:254-324 | one row per bundle when there are bundles; otherwise one per external lot when there are lots; otherwise one; every row starts with the record's base columns |
| Rastreabilidade.RastreabilidadeCobre | frontend/src/pages/Relatorios.jsx:252-326 | every row belongs to some record, and every record has a row |
| Exportacao.Nome | frontend/src/pages/Relatorios.jsx:70-78 | every report type has a non-empty label |
| Exportacao.TipoDeId | frontend/src/pages/Relatorios.jsx:70-78 | looking a type up by its id finds it |
| Exportacao.NomeDoTipo | frontend/src/pages/Relatorios.jsx:341 | the type's label, "Relatorio" for an unknown type |
| Exportacao.RotuloDoTipo | frontend/src/pages/Relatorios.jsx:70-78 | each type's label with its white space replaced by `_`, such as "Produção_por_Período" and "Rastreabilidade_(Amarrados/Lotes)" |
| Exportacao.NomeArquivoDoTipo | frontend/src/pages/Relatorios.jsx:341-345 | a listed type's file name is its label, `_` and the mode for traceability only, then `_` and the timestamp |
| Exportacao.LinhasDoTipo | frontend/src/pages/Relatorios.jsx:327-328 | an unknown type builds no rows |
| Exportacao.ChavesDaExplosao | frontend/src/pages/Relatorios.jsx:252-326 | the traceability rows' keys are exactly the records' ids |
| Exportacao.RastreabilidadeAoMenosUma | frontend/src/pages/Relatorios.jsx:252-326 | at least one traceability row per record |
| Exportacao.CompactarPorChaves | frontend/src/pages/Relatorios.jsx:337-339 | compaction leaves distinct keys covering the same ids |
| Exportacao.Exportar | frontend/src/pages/Relatorios.jsx:332-351 | no file exactly when there are no rows; the PDF notice exactly when the format is not `excel` |
| Exportacao.TipoProducao | frontend/src/pages/Relatorios.jsx:171-185 | the production export is the production rows of the sorted records |
| Exportacao.TipoRastreabilidade | frontend/src/pages/Relatorios.jsx:252-326 | the traceability export explodes the sorted records |
| Exportacao.ExportarProducao | frontend/src/pages/Relatorios.jsx:332-351 | a production export of `n` records is a file with the header and `n` lines |
| Exportacao.ExportarParadas | frontend/src/pages/Relatorios.jsx:186-195 | one downtime row per filtered downtime record |
| Exportacao.ExportarDetalhado | frontend/src/pages/Relatorios.jsx:332-339 | the detailed mode exports the explosion unchanged, at least one row per record |
| Exportacao.ExportarCompacto | frontend/src/pages/Relatorios.jsx:336-339 | the compact mode exports one row per distinct record id |
| Exportacao.ExportarDesconhecido | frontend/src/pages/Relatorios.jsx:341-345 | an unknown type exports no file, under the name `Relatorio_<timestamp>` |
| Exportacao.FormatoSoAviso | frontend/src/pages/Relatorios.jsx:344-350 | the format changes neither the file name nor the content, only the notice |
| Exportacao.ConstruirIgnoraFormato | frontend/src/pages/Relatorios.jsx:169-329 | the format does not change the rows built |
| Exportacao.NomeArquivoCarimbo | frontend/src/pages/Relatorios.jsx:345 | the file name ends in `_` and the timestamp's digits, reading back as the timestamp |
| Previa.ParcelaDesempenhoPrevia | frontend/src/pages/Relatorios.jsx:490-499 | the preview's performance buckets use the stored machine, not the catalogue name |
| Previa.DesempenhoPreviaTotal | frontend/src/pages/Relatorios.jsx:488-501 | the preview's performance production sums to the filtered records' total |
| Previa.DesempenhoDiverge | frontend/src/pages/Relatorios.jsx:492 | a catalogued machine gets a different key in the preview than in the export |
| Previa.ParcelaOeeParadaPrevia | frontend/src/pages/Relatorios.jsx:688-694 | as written, a downtime record without a stored `inicio` adds 0 minutes to the bucket "-" |
| Previa.ParcelaOeeParadaCorrigida | frontend/src/pages/Relatorios.jsx:688-694 | corrected, the preview's downtime contribution is the export's |
| Previa.OeePreviaParadas | frontend/src/pages/Relatorios.jsx:677-695 | as written, the preview's downtime minutes are those of the raw columns |
| Previa.OeePreviaCorrigidaParadas | frontend/src/pages/Relatorios.jsx:677-695 | corrected, they are those of the normalised columns, production sums to the total, and the rows are sorted by day |
| Previa.OeePreviaPerdeParada | frontend/src/pages/Relatorios.jsx:689-693 | a downtime record known only by its timestamp columns loses its minutes as written, and keeps them corrected |
| Previa.OeePreviaExemplo | frontend/src/pages/Relatorios.jsx:689-693 | a ten-minute stop with only timestamp columns: 0 minutes as written, 10 on its day corrected |
| Previa.TipoExibido | frontend/src/pages/Relatorios.jsx:625-626 | "setup", "nao_planejada", "manutencao" and "planejada" are shown as "Setup", "Não Planejada", "Manutenção" and "Planejada"; any other type as stored, "-" when empty; never empty |
| Previa.CfgMapa | frontend/src/pages/Relatorios.jsx:739-743 | the configuration loop yields the specified map |
| Previa.CfgMapaUltima | frontend/src/pages/Relatorios.jsx:739-743 | the last configuration for a tool wins |
| Previa.CfgMapaChaves | frontend/src/pages/Relatorios.jsx:741-742 | only non-empty tools are keys, each mapped to one of its own configurations |
| Previa.CfgDe | frontend/src/pages/Relatorios.jsx:745 | `cfgMap[t] \|\| {}` |
| Previa.Teto | frontend/src/pages/Relatorios.jsx:756 | `Math.ceil(q / d)`: the least multiple count covering `q` |
| Previa.Estimar | frontend/src/pages/Relatorios.jsx:744-769 | packaging `pallet` by default; on pallets, the pallet count covers the quantity and the slats are pallets times slats per pallet; otherwise the box count covers the quantity; "-" wherever the per-unit count is not positive |
| Previa.EstimativasPrevia | frontend/src/pages/Relatorios.jsx:744-770 | one estimate per tool bucket, with its tool and quantity |
| Previa.AcumularPorDia | frontend/src/pages/Relatorios.jsx:811-823 | the preview loop yields the specified per-day quantities |
| Previa.PorDiaItens | frontend/src/pages/Relatorios.jsx:815-816 | an item has an entry exactly when some record belongs to it |
| Previa.PorDiaDias | frontend/src/pages/Relatorios.jsx:821-822 | a day is listed for an item exactly when some record of the item falls on it; never the empty day |
| Previa.PorDiaValor | frontend/src/pages/Relatorios.jsx:821-822 | a day's entry is the sum of the item's quantities on that day |
| Previa.QtdDoDiaZero | frontend/src/pages/Relatorios.jsx:821-822 | a day that is not listed has no quantity |
| Previa.Item | frontend/src/pages/Relatorios.jsx:825-832 | an item keeps its bucket's figures and reads its adjustments under its key |
| Previa.ItensProdutividade | frontend/src/pages/Relatorios.jsx:825-833 | one item per sorted bucket |
| Previa.ItensProdutividadeTotais | frontend/src/pages/Relatorios.jsx:825-833 | the items are sorted by tool, and their quantities sum to the filtered records' total |
| Previa.BasePrevia | frontend/src/pages/Relatorios.jsx:888-900 | the preview's base columns, without `ID_Apont` |
| Previa.ExtraAmarradoPrevia | frontend/src/pages/Relatorios.jsx:925-934 | the preview's eight bundle columns |
| Previa.ExtraLotePrevia | frontend/src/pages/Relatorios.jsx:907-917 | the same eight columns from a catalogue lot |
| Previa.LinhasRastreabilidadePrevia | frontend/src/pages/Relatorios.jsx:885-940 | at least one preview row per record |
| Previa.LinhasRastreabilidadePreviaSemId | frontend/src/pages/Relatorios.jsx:885-940 | no preview row has an `ID_Apont` column |
| Previa.RastreabilidadePreviaColapsa | frontend/src/pages/Relatorios.jsx:943-945 | as written, the compact preview has a single row, whatever the number of records |
| Previa.RastreabilidadeCorrigidaUmaPorRegistro | frontend/src/pages/Relatorios.jsx:943-945 | corrected, the compact preview has one row per distinct record id |
| Armazenamento.ComOverride | frontend/src/pages/Relatorios.jsx:529-530 | the field written reads back the value; the key's other fields and the other keys are unchanged |
| Armazenamento.OverrideUltimoVale | frontend/src/pages/Relatorios.jsx:529-530 | of two writes to one field the last wins |
| Armazenamento.Sobreposicoes.SetOverride | frontend/src/pages/Relatorios.jsx:529-533 | the store becomes the updated map; the field reads the value; other keys are unchanged |
| Armazenamento.RowId | frontend/src/pages/Relatorios.jsx:512 | the key of a record with nothing set is the bare separators |
| Armazenamento.RowIdMesmosCampos | frontend/src/pages/Relatorios.jsx:512 | records that agree on start, operator, machine, profile and quantity share one key |
| Armazenamento.RowIdSepara | frontend/src/pages/Relatorios.jsx:512 | when no text value holds `_`, equal keys mean equal start, operator, machine, profile and quantity |
| Armazenamento.Alternar | frontend/src/pages/Relatorios.jsx:515 | the entry flips; the other entries are unchanged |
| Armazenamento.AlternarDuasVezes | frontend/src/pages/Relatorios.jsx:513-518 | two toggles restore the check mark, and the store too when the entry existed |
| Armazenamento.AlternarAusente | frontend/src/pages/Relatorios.jsx:513-518 | an entry never stored comes back as an explicit `false` |
| Armazenamento.Marcacoes.ToggleFlag | frontend/src/pages/Relatorios.jsx:513-518 | the record's check mark flips, and every record with another key keeps its own |
| Painel.DiaDoInicio | frontend/src/pages/Dashboard.jsx:17-18 | at most ten characters; "" without a start |
| Painel.DoDiaPrefixo | frontend/src/pages/Dashboard.jsx:17-20 | a record counts for the day exactly when its start text begins with the day |
| Painel.ProducaoDiariaDoDia | frontend/src/pages/Dashboard.jsx:16-21 | today's production is the sum of the quantities of the records started today |
| Painel.MsNoDia | frontend/src/pages/Dashboard.jsx:27-33 | a stop's overlap with the day: 0 without a start, at most the day's length, its full length when inside the day, 0 when outside, from the day's start to its end for a stop begun the day before, from its start to the day's end for one running past midnight, the whole day for one covering it, an open stop running until now |
| Painel.MsParadaHojeLimites | frontend/src/pages/Dashboard.jsx:26-34 | the day's downtime is between 0 and the number of stops times the day's length |
| Painel.DoisDigitosLido | frontend/src/pages/Dashboard.jsx:36-37 | the padded number reads back as the number |
| Painel.TempoParada | frontend/src/pages/Dashboard.jsx:35-38 | "-" exactly when there is no downtime |
| Painel.TempoParadaLido | frontend/src/pages/Dashboard.jsx:35-38 | otherwise `hh:mm`, with minutes below 60 and hours·60+minutes the whole minutes of downtime |
| Painel.ConcluidosEPendentes | frontend/src/pages/Dashboard.jsx:41-51 | every order is either finished or pending |
| Painel.Stats | frontend/src/pages/Dashboard.jsx:14-66 | the OEE placeholders are 0; the finished and pending counts are the numbers of orders with those statuses, adding up to all orders; the downtime text is the formatting of today's downtime, "-" exactly when there is none; the daily production is the sum over today's records |
| Painel.PorPedido | frontend/src/pages/Dashboard.jsx:70-79 | the aggregation loop, with its `continue`, yields the specified map |
| Painel.PorPedidoChaves | frontend/src/pages/Dashboard.jsx:72-75 | an order has an entry exactly when its reference is non-empty and some record carries it |
| Painel.PorPedidoQuantidade | frontend/src/pages/Dashboard.jsx:74-76 | the entry's quantity is the sum over the order's records |
| Painel.QtdDoPedidoAusente | frontend/src/pages/Dashboard.jsx:72-76 | an order without an entry has no quantity |
| Painel.PorPedidoUltimo | frontend/src/pages/Dashboard.jsx:77-78 | the last record kept is the last record of the order |
| Painel.NomeVisivel | frontend/src/pages/Dashboard.jsx:84 | `nome \|\| codigo \|\| modelo \|\| '-'`: the name, else the code, else the model, each when not empty; "-" when all three are empty |
| Painel.MapaMaquinas | frontend/src/pages/Dashboard.jsx:82-87 | the machine loop yields the specified map |
| Painel.MapaMaquinasChaves | frontend/src/pages/Dashboard.jsx:85-86 | a key is present exactly when some machine has it as its id or its code |
| Painel.MapaMaquinasUltima | frontend/src/pages/Dashboard.jsx:83-87 | the last machine with that id or code decides the name |
| Painel.Arredondar100 | frontend/src/pages/Dashboard.jsx:109 | `Math.round(prod / qtd * 100)`, exactly: 100·prod/qtd rounded half up |
| Painel.Progresso | frontend/src/pages/Dashboard.jsx:109 | at most 100; 0 without a quantity ordered; not negative for a non-negative production; below target it is the rounded percentage |
| Painel.RotuloMaquina | frontend/src/pages/Dashboard.jsx:111-112 | the mapped name when there is one; otherwise "-" for a value that looks like an id or is empty, and the raw value itself for any other |
| Painel.LinhaOrdem | frontend/src/pages/Dashboard.jsx:104-119 | machine and operator are never empty, the profile is the product, and an order in execution has its rounded progress between 0 and 100 |
| Painel.LinhaOrdemCampos | frontend/src/pages/Dashboard.jsx:105-117 | the code is `pedido_seq`, else `nro_op`, else the id; the operator is the last record's, "-" without one; the machine is the label of the trimmed machine of the last record, else of the order's current operation |
| Painel.Selecionados | frontend/src/pages/Dashboard.jsx:95-103 | `filter`: an order-preserving subsequence holding exactly the orders that have production, are not closed and have not reached their quantity |
| Painel.SelecionadosMultiplicidade | frontend/src/pages/Dashboard.jsx:95-103 | each selected order is kept as often as it occurs, every other one dropped |
| Painel.OrdensExecucao | frontend/src/pages/Dashboard.jsx:93-121 | the first five selected orders, in order, each as its row |
| Painel.OrdensExecucaoCompleta | frontend/src/pages/Dashboard.jsx:120 | with at most five selected, every order in execution is shown |
| Painel.PainelOrdens | frontend/src/pages/Dashboard.jsx:68-123 | the whole computation equals the list built from the specified order and machine maps |

## Left out

- Browser I/O is not modelled: the `Blob` download, `localStorage`, `alert`, React state hooks, the data hooks and all JSX rendering. The CSV is modelled as the text that would be written, and the stores start empty.
- Printing the identification form is outside the computational core and is not modelled.
- Dates are given, not parsed. `new Date`, `toISOString`, `toLocaleDateString`, `toLocaleTimeString` and `toLocaleString` with the pt-BR locale are fields of an `Instant`. Unparseable date strings and the `try`/`catch` around them are not modelled.
- Painel.Stats takes the day, its local bounds and the current time as parameters. The source takes the day from UTC and the bounds from local time, which differ near midnight; that difference is not modelled.
- `localeCompare` is modelled as code-point order, not the locale's collation.
- `Object.values` is modelled in first-insertion order. JavaScript puts integer-like keys first; that reordering is not modelled.
- Quantities are integers. `Number(x || 0)`, `isNaN` and non-numeric text are not modelled. Weights, `peso_estimado`, the averages `media_h` and `media_dia`, and `fmt` are floating point and are left out.
- Tempo.Fixed2Valor and Tempo.Centesimos model `toFixed(2)` on the exact rational, rounding half up. Binary floating point can round a tie differently.
- Painel.Arredondar100 is `Math.round` on the exact rational; the floating-point product is not modelled.
- Text.ToUpper and Text.ToLower map ASCII letters only. Accented letters are left as they are.
- Catalogue entries that are `null` (skipped at line 421) are not modelled, because a catalogue here holds only machines.
- CodeParser.ExtrairComprimentoAcabado and CodeParser.ComprimentoValor read the digit run as an exact natural number. The source's `parseInt` and the number-to-text conversion round above 2^53, print in exponent form from 10^21 on, and give `Infinity` beyond about 308 digits; those effects are not modelled.
- Armazenamento.RowId: the key does not separate records whose text values hold `_` (for example an operator "a_" and a machine "b" against an operator "a" and a machine "_b"), as in the source; Armazenamento.RowIdSepara therefore requires values without `_`.
- Compactacao.CompactarPecas requires every row of the group to have tokens without surrounding white space in that column and to merge that column (always so for the eight fixed columns; for `Amarrado_Ferramenta` and `Amarrado_Comprimento_mm` it also asks it of the first row, which the source does not merge). A token with surrounding white space is trimmed by the next merge, so its union would be one of trimmed tokens, which the lemma does not state.
- Ordenacao.ApontamentosOrdenados states only the permutation in its contract. The newest-first order is proved separately by Ordenacao.ApontamentosRecentesPrimeiro.

## Findings

| source | as written | input that shows it | evidently intended | confidence | as-written member | corrected member |
|---|---|---|---|---|---|---|
| frontend/src/pages/Relatorios.jsx:888-900, 943-945 | the preview's traceability rows have no `ID_Apont`, so compact mode keys every row by "" and merges all records into one row | two records with different ids, mode `compacto`: the preview shows one row | one row per record, as in the export, whose rows carry `ID_Apont` | high, not executed | Previa.RastreabilidadePreviaColapsa | Previa.RastreabilidadeCorrigidaUmaPorRegistro |
| frontend/src/pages/Relatorios.jsx:689, 693 | the preview's OEE reads the downtime's raw `inicio`/`fim` instead of the normalised `inicio_norm`/`fim_norm`, which the filter used | a ten-minute stop stored only in `inicio_timestamp`/`fim_timestamp`: bucket "-" and 0 minutes | the stop's day and 10 minutes, as in the export (lines 220-224) | high, not executed | Previa.OeePreviaPerdeParada | Previa.OeePreviaCorrigidaParadas |
