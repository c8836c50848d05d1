# Parking ticket core, modelled in Dafny

This project models the core of a small parking-ticket system (`index.ts`).
A vehicle enters the yard, leaves it, and can be looked up by its plate. The
system keeps three CSV stores:

- the entry log `entradas.csv`, which is only ever appended to;
- the active store `ativos.csv`, holding the vehicles now in the yard;
- the exit log `saidas.csv`.

An exit is billed by whole hours, with at least one hour.

The modules follow the program's own layers:

| module | what it holds |
|---|---|
| `Text` | `toUpperCase`, `trim` and the plate normalisation (upper-case first, then trim); the string order used to sort exits |
| `Numbers` | how integers and amounts of money are written into a CSV field (`String(n)`) and read back (`Number(text)`) |
| `Csv` | `csvSafe`, joining with commas, and `splitCsv`: the splitter as a function `Scan` and as the character loop `SplitCsv` proved equal to it |
| `Records` | `VeiculoAtivo`, `VeiculoSaida`, `ativoToCsv`, `saidaToCsv` and the row decoders used by the readers |
| `Repository` | the text of a store: header line, one line per record, `split(/\r?\n/).filter(Boolean).slice(1)` on reading, full replacement by `escreverAtivos` |
| `Billing` | `max(1, ceil(ms / 3_600_000))` and the price |
| `Ticket` | the queries as functions (`PrimeiroIndice`, `UltimaSaida`, `Consultar`), and the class `Estacionamento`, whose fields are the three store texts, with the methods `RegistrarEntrada`, `RegistrarSaida` and `ConsultarPlaca` |

`Estacionamento` holds each store as the text of its file. Each text has a
ghost view: the sequence of records the text encodes. `Valid()` ties the two
together. Every method states the new text and the new records of all three
stores.

## Model

| member | source | states |
|---|---|---|
| Csv.CsvSafe | index.ts:85-87 | the field comes back unchanged exactly when it holds no comma, quote or line feed; quoting never introduces a line feed |
| Csv.CsvSafeQuoted | index.ts:85-87 | a quoted field starts and ends with a quote; between them every quote is doubled, and undoubling them gives back the original field |
| Csv.EscapeRoundTrip | index.ts:86 | doubling every quote and then reading each doubled quote as one gives back the text |
| Csv.EscapePaired | index.ts:86 | after doubling, every quote in the text is the first of a pair of quotes |
| Csv.Scan | index.ts:99-113 | the splitter keeps the fields already finished and always adds at least one more |
| Csv.ScanCount | index.ts:99-113 | the number of fields is the number of commas outside quotes, plus one |
| Csv.SplitCsv | index.ts:99-114 | the character loop, including its skip over a doubled quote, returns exactly what the splitter function returns, with one field more than there are commas outside quotes |
| Csv.ScanEscaped | index.ts:103-105 | inside quotes, an escaped field followed by its closing quote reads back as the original field |
| Csv.ScanField | index.ts:99-113 | one field written by `csvSafe` and followed by a comma or the end of the line is read back as that field |
| Csv.SafeAllAt | index.ts:90 | `map(csvSafe)` quotes each field in its own place |
| Csv.Join5 | index.ts:90 | `join(',')` of five fields puts a comma between consecutive fields |
| Csv.SplitEncoded | index.ts:85-114 | splitting the comma-joined `csvSafe` encoding of any non-empty list of fields gives back that list |
| Csv.EncodedNoNewline | index.ts:85-90 | an encoded line holds no line feed when none of its fields does |
| Numbers.NatRoundTrip | index.ts:95 | `Number(String(n))` is `n` for every non-negative integer |
| Numbers.MoneyRoundTrip | index.ts:89 | an amount of cents written the way `String(cents / 100)` writes it is read back as the same amount |
| Numbers.ParseNat | index.ts:194 | an integer field is accepted exactly when it is a non-empty run of digits |
| Records.AtivoRoundTrip | index.ts:88-91 | decoding an active record's line, without its line feed, as `lerAtivos` does gives back the record |
| Records.SaidaRoundTrip | index.ts:92-96 | decoding an exit record's line, as `consultarPlaca` does, gives back the record with all eight fields |
| Records.AtivoFromFields | index.ts:120-122 | a decoded active record takes its plate from the second field and its rate from the fifth |
| Records.SaidaFromFields | index.ts:189-195 | a decoded exit record takes its exit time from the second field and its plate from the third |
| Records.AtivoLineJoin | index.ts:88-90 | an active record's line is its five `csvSafe` fields in column order, separated by commas |
| Records.AtivoLineShape | index.ts:88-91 | an active record's line holds no line feed and ends in a digit, so no line break of the store falls inside it |
| Records.SaidaLineShape | index.ts:92-96 | the same for an exit record's line |
| Repository.HeadersClean | index.ts:60-64 | the three header lines hold no line feed and do not end in a carriage return |
| Repository.SplitUnlines | index.ts:119 | splitting at `\r?\n` a text made of clean lines, each followed by a line feed, gives back those lines and one empty line |
| Repository.BodyUnlines | index.ts:119 | dropping empty lines and the header from such a text gives back the record lines |
| Repository.AppendAtivo | index.ts:142-143 | appending `ativoToCsv(v)` to a store's text gives the text of the store with `v` added at the end |
| Repository.AppendSaida | index.ts:165 | the same for the exit log and `saidaToCsv` |
| Repository.LerEscreverAtivos | index.ts:117-128 | reading the text that `escreverAtivos` writes gives back the same records in the same order |
| Repository.LerSaidasArquivo | index.ts:186-196 | reading the exit log's text gives back every exit record in order |
| Repository.GuardaVazia | index.ts:73-75 | a store holding only its header line holds no records, and reads back as empty |
| Repository.AnexaAtivo | index.ts:142-143 | appending a record's line to a well-formed store of active records leaves a well-formed store with the record added last |
| Repository.AnexaSaida | index.ts:165 | the same for the exit log |
| Repository.LinhaPartida | index.ts:119-121 | a record whose line a line feed cuts into two pieces, each free of line feeds, does not read back as that one record |
| Repository.QuebraDeLinha | index.ts:117-121 | a record whose model field holds a line feed is written quoted, but does not read back, because the reader splits lines before it looks at quotes |
| Billing.CeilDiv | index.ts:159 | the rounded-up quotient `c` satisfies `(c-1)*d < a <= c*d` |
| Billing.Horas | index.ts:158-159 | at least one hour; one hour when no time passed; otherwise the least number of whole hours covering the stay |
| Billing.HorasUnique | index.ts:159 | for a positive stay, only one hour count satisfies the covering bounds |
| Billing.HorasMonotonic | index.ts:159 | a longer stay is never billed fewer hours |
| Billing.BillingExample | index.ts:158-160 | 2h15m is billed 3 hours, and 3 hours at 10.00 cost 30.00 |
| Billing.Preco | index.ts:160 | a stay of at least one hour costs at least the hourly rate |
| Text.TrimStartSpec | index.ts:137 | `trim` removes the longest prefix of white space, and only that |
| Text.TrimEndSpec | index.ts:137 | `trim` removes the longest suffix of white space, and only that |
| Text.TrimShape | index.ts:137-139 | the trimmed text is a contiguous slice of the input with no white space at either end |
| Text.TrimFixed | index.ts:137-139 | a text with no white space at either end is left as it is by `trim` |
| Text.ToUpperAt | index.ts:137 | upper-casing works character by character |
| Text.NormalizeIdempotent | index.ts:180 | normalising an already normalised plate changes nothing, so a stored plate matches the normalised form of itself |
| Text.NormalizeExample | index.ts:150 | ` abc1 ` and `ABC1` normalise to the same plate `ABC1` |
| Text.NormalizeKeepsOutNewline | index.ts:137-139 | normalising or trimming adds no line feed |
| Text.LeTotal | index.ts:198 | any two exit times are comparable by the order used for sorting |
| Text.LeTransitive | index.ts:198 | that order is transitive |
| Ticket.PrimeiroIndice | index.ts:152 | `findIndex` by plate: the index found is the first with that plate; no index means no record has the plate |
| Ticket.UltimaSaida | index.ts:189-200 | filter by plate, stable sort by exit time, `pop`: the exit picked has the plate, no exit of the plate is later, and every exit of the plate after it in the file is strictly earlier; nothing is picked only when no exit has the plate |
| Ticket.PrimeiroUnico | index.ts:152 | the first match is unique |
| Ticket.UltimaUnica | index.ts:197-200 | the exit the sort puts last is unique |
| Ticket.Consultar | index.ts:180-203 | ATIVO with the first active record of the plate; otherwise SAIU with the exit the sort puts last; NAO_ENCONTRADO only when neither store has the plate |
| Ticket.FechamentoSpec | index.ts:155-162 | the exit record keeps the active record unchanged, carries the exit time, bills the hours of `Horas` (at least one, covering the stay) and costs hours times rate |
| Ticket.SemUmGravavel | index.ts:164 | dropping one record from the active list leaves only records that fit on their lines |
| Ticket.SaidaMoveUm | index.ts:164-165 | an exit removes exactly one active record of the plate and adds exactly one exit record of it |
| Ticket.SaidaUnicaSome | index.ts:164 | a plate with a single active record is no longer active after its exit |
| Ticket.EntradaConsultada | index.ts:180-184 | right after an entry, looking the plate up answers ATIVO; it answers with the new record when the plate was not already active |
| Ticket.SaidaConsultada | index.ts:183-201 | after the only active record of a plate leaves, with an exit time no earlier than its earlier exits, looking the plate up answers SAIU with that exit |
| Ticket.Estacionamento.constructor | index.ts:67-81 | each store starts as its header line alone, holding no records |
| Ticket.Estacionamento.LerAtivosAtuais | index.ts:117-124 | reading the active store gives exactly the records it holds |
| Ticket.Estacionamento.AnexarEntrada | index.ts:142 | appending to the entry log adds the record at its end; the other stores do not change |
| Ticket.Estacionamento.AnexarAtivo | index.ts:143 | appending to the active store adds the record at its end; the other stores do not change |
| Ticket.Estacionamento.AnexarSaida | index.ts:165 | appending to the exit log adds the record at its end; the other stores do not change |
| Ticket.Estacionamento.EscreverAtivosStore | index.ts:125-128 | the active store becomes the header and the lines of the given list, holding that list; the other stores do not change |
| Ticket.Estacionamento.RegistrarEntrada | index.ts:132-146 | the record has the upper-cased-then-trimmed plate, the trimmed model and colour, the clock reading and the rate; it is appended once to both the entry log and the active store; the exit log does not change |
| Ticket.Estacionamento.RegistrarSaida | index.ts:149-172 | no answer exactly when no active record has the normalised plate, and then nothing changes; otherwise the first such record is removed, the others keep their order, and its billed exit record is appended to the exit log; the entry log never changes |
| Ticket.Estacionamento.ConsultarPlaca | index.ts:175-204 | the answer is `Consultar` of the records both stores hold, for the normalised plate |

## Left out

- File I/O (`fs.readFile`, `appendFile`, `writeFile`, `mkdir`, `access`) and path resolution: each store is the text of its file, held in a field.
- Ticket.Estacionamento.constructor: it models `preparaAmbiente` on a fresh directory only. On an existing directory nothing is rewritten, and that case is not modelled.
- The summary file `resumo_diario.txt` and its lines: it is free text that nothing reads back.
- The readline console, the `ask` wrapper, the printing helpers and the menu loop: user interface.
- The clock. `new Date().toISOString()` becomes a parameter (`agoraISO`, `saidaISO`), and `Date.parse` the function parameter `msOf`.
- Ticket.Fechamento: money is integer cents. The price is exactly hours times the rate, so the float product and `toFixed(2)` rounding are not modelled.
- Numbers.MoneyText: `String` of a float is modelled for non-negative cent amounts written in plain decimal. Exponent notation for very large or very small numbers is not modelled.
- Records.AtivoFromFields: a row with fewer than five fields, or a rate that `ParseMoney` refuses, makes the whole read answer None. The source instead keeps going: missing fields become `undefined`, and `Number` turns the rate into `NaN` or into a number. Only rows the program itself never writes differ. `AtivoRoundTrip` shows every row it writes reads back.
- Records.SaidaFromFields: the same for exit rows. Fewer than eight fields, or a rate, hour count or price that the parsers refuse, makes the whole read answer None, where the source would read `undefined` or `NaN`. `SaidaRoundTrip` shows every row the program writes reads back.
- Numbers.ParseNat: accepts only a non-empty run of ASCII digits. `Number` also accepts surrounding white space (`" 12"` is 12), exponents (`"1e3"` is 1000), signs and hexadecimal, and reads `""` as 0. The model answers None for all of these.
- Numbers.ParseMoney: accepts digits with at most two decimals. `Number` also reads more decimals (`"12.345"`) and the forms listed for `ParseNat`. `MoneyText` never writes any of them.
- Text.Le: `localeCompare` is modelled as lexicographic order of character codes. The two agree on ISO timestamps, which are the only strings compared.
- Text.ToUpper: only ASCII letters are upper-cased. `trim` uses the full ECMAScript white-space and line-terminator set.
- Ticket.Estacionamento.RegistrarEntrada: requires plate, model, colour and clock reading without a line feed. The readers split a store at line breaks before looking at quotes, so a record holding one would not read back (`Repository.QuebraDeLinha`). The console never delivers one.
- Ticket.Estacionamento.RegistrarSaida: requires an exit time without a line feed, for the same reason.
- Ticket.SaidaUnicaSome: the system does not stop a plate from being registered twice. The plate disappearing from the active store after its exit is proved only when it had one active record. With duplicates, the first match leaves and the others stay.
- Ticket.UltimaSaida: the stable sort and `pop` are modelled by what they select: the latest exit time, the later one in file order on ties. The sorted array itself is not modelled.
