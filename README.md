# Automatic ticket classification — a Dafny model

This project models the core of a Spanish-language customer-support ticket classifier:

- the keyword classifier `clasificar_con_palabras_clave`. It takes an ordered table of five category patterns (logística, pagos, producto defectuoso, cuenta, facturación) and searches it over the lower-cased text. The first match wins, and "otros" means that nothing matched.
- the urgency detector `es_urgente`. It holds four patterns: urgency words, failure words, `!\s*!+`, and "prioridad/nivel 1–3".
- the hybrid decision `clasificar_texto`. It asks a zero-shot model when one is loaded. The model's top label is kept only when its score reaches that label's threshold (logística 0.4, otros 0.3, every other label 0.5). In every other case the keyword classifier answers.
- the ticket issuer `TicketSystem`. It is a class that owns the list of issued tickets and the counter of simulated ids. It issues tickets in memory (simulated mode) or through the Zendesk API (mode "zendesk"). It can clear its history.
- the batch pipeline `procesar_tickets`. It finds the description column (the header stripped and lower-cased must read "descripcion"). It counts repeated descriptions, then classifies each row and flags its urgency in row order. It adds the `categoria` and `urgente` columns and splits off the urgent rows into their own file.
- the single-ticket path `procesar_ticket_individual`. A blank text gets three empty answers. Any other text is classified and flagged, issued as a ticket, and answered with the category label, "SÍ"/"NO" and a status line.

Modules, one per file:

| file | module | contents |
|---|---|---|
| `optional.dfy` | `Optional` | `Option` |
| `text.dfy` | `Text` | `str.lower()`, `str.strip()`, `\s`, `\w`, the decimal spelling of an integer |
| `patterns.dfy` | `Patterns` | the three regular-expression shapes, given by what they match |
| `categories.dfy` | `Categories` | categories, `CATEGORIAS`, the keyword classifier |
| `urgency.dfy` | `Urgency` | `URGENCY_PATTERNS`, `es_urgente` |
| `hybrid.dfy` | `Hybrid` | the model oracle, thresholds, `clasificar_texto` |
| `tickets.dfy` | `Tickets` | `TicketSystem`, the Zendesk payload and reply handling |
| `batch.dfy` | `Batch` | tables, `procesar_tickets` as a specification function and as a method with its two loops |
| `individual.dfy` | `Individual` | `procesar_ticket_individual` |

Some things are oracles or parameters:

- The loaded model is an oracle `infer(text, labels, templates)`. It returns the ranked labels and scores, or the exception the pipeline raised.
- The Zendesk HTTP exchange is an oracle `send` from the request payload to the reply: a transport exception, or a status code with a text and a JSON body.
- The clock is a parameter: `now` for ticket stamps, `timestamp` for file names.
- The module-level `ticket_system` is passed to `ProcesarTicketIndividual` as a parameter.

Regular expressions are modelled by what they match, not by an engine:

- `AnyOf` stands for an alternation of literals.
- `WordOf` stands for the same alternation wrapped in `\b...\b`.
- `BangRun` stands for `!\s*!+`.
- A character class such as `env[íi]o` or `[1-3]` is written out as its literals.

Behaviour of the code worth knowing (the model follows the code):

- "Error en mi pago" is urgent, because "error" is one of the failure words of the second urgency pattern.
- Two inverted exclamation marks "¡¡" are not urgent: the pattern counts "!", not "¡".
- Urgency words must stand as whole words because of `\b`. For example, "urgentemente" does not contain the word "urgente".
- The model is offered the five keys of `CATEGORIAS` as candidate labels, and "otros" is not among them. The threshold for "otros" is therefore kept but only reached if the model returns a label it was not offered.
- The single-ticket path ignores what `create_ticket` returns. A Zendesk error does not change the status line shown.
- `if not desc_col` after the header loop is equivalent to "no column found": a found column's name is never empty.

## Model

| member | source | states |
|---|---|---|
| Text.LowerChar | app.py:162 | a lower-cased character is never upper-case, and it differs from the original exactly when the original is an upper-case letter |
| Text.IsSpace | app.py:224 | `str.isspace()` and the class `\s`: the ASCII control blanks, the separators U+001C..U+001F, the space, U+0085, U+00A0 and the Unicode space separators |
| Text.IsWordChar | app.py:30-35 | the class `\w` that `\b` looks at: digits, letters of Latin-1 (with ª, µ, º and the superscripts and fractions) and `_` |
| Text.IsUpper | app.py:162 | the characters `lower()` changes on Latin-1: A–Z and À–Þ except × |
| Text.Lower | app.py:169 | `lower()` keeps the length and lower-cases every character in place |
| Text.LowerIdempotent | app.py:162 | lower-casing twice gives the same text as lower-casing once |
| Text.LowerKeepsLowerCase | app.py:224 | a text with no upper-case letter is its own lower-cased form |
| Text.TrimStart | app.py:224 | `lstrip()` keeps a suffix, every removed character is white space, and the result does not start with white space |
| Text.TrimEnd | app.py:224 | `rstrip()` keeps a prefix, every removed character is white space, and the result does not end with white space |
| Text.Strip | app.py:224 | `str.strip()` is `rstrip()` after `lstrip()` |
| Text.StripKeepsTrimmed | app.py:224 | a text that neither starts nor ends with white space is its own `strip()` |
| Text.StripSlice | app.py:224 | `strip()` returns the slice of the text that starts after the leading white space |
| Text.StripSpec | app.py:224 | `strip()` keeps a middle slice, only white space lies outside it, and neither end of it is white space |
| Text.StripEmptyIffBlank | app.py:272 | `not text.strip()` holds exactly when every character of the text is white space, the empty text included |
| Text.NatToString | app.py:116 | the spelling of a natural number is a non-empty string of decimal digits that starts with "0" only for 0 |
| Text.IntToString | app.py:116 | `str()` of an integer: it starts with "-" exactly when the number is negative, followed by the digits of its magnitude, and is the digits of the number otherwise |
| Text.DecimalSpelling | app.py:116 | the status code 500 is spelled "500" and -7 is spelled "-7" |
| Text.NatToStringValue | app.py:116 | the digits written for a natural number spell it back: `DigitsValue(NatToString(n)) == n`; the spelling has no leading zero |
| Text.NatToStringInjective | app.py:116 | different natural numbers are spelled differently |
| Text.IntToStringInjective | app.py:116 | different status codes give different texts: the sign is "-" exactly for a negative number and the rest spells its magnitude |
| Patterns.NothingMatchesEmpty | app.py:23-35 | no pattern whose literals are all non-empty matches the empty text |
| Patterns.OccursAt | app.py:23-29 | a literal occurs at a position: the slice there equals it |
| Patterns.WordAt | app.py:30-35 | a literal occurs at a position with `\b` on both sides, one side of each boundary a word character and the other not (or the text's end) |
| Patterns.BangPair | app.py:33 | a "!" at `i` and at `j` with only white space between them, a match of `!\s*!+` |
| Patterns.Search | app.py:164 | `re.search(p, s)`: some literal of an alternation occurs (as a whole word under `\b...\b`), or a bang pair exists |
| Patterns.TooShortToMatch | app.py:23-35 | a text shorter than every literal of a pattern does not match it |
| Patterns.NoBangNoRun | app.py:33 | a text without "!" does not match `!\s*!+` |
| Patterns.BangRunMatches | app.py:33 | two "!" separated only by blanks match `!\s*!+` |
| Categories.NameInjective | app.py:23-29 | distinct categories are reported under distinct labels |
| Categories.FirstMatch | app.py:170-173 | the loop over the ordered rules: the category of the first rule whose pattern matches, "otros" after the last |
| Categories.ClasificarConPalabrasClave | app.py:168-173 | the first-match loop over `Categorias` (the five rules of app.py:23-29, in that order) applied to the lower-cased text |
| Categories.FirstMatchSpec | app.py:170-173 | the loop returns the category of the first matching rule, and "otros" when no rule matches |
| Categories.FirstMatchExists | app.py:170-172 | when some rule matches, a first matching rule exists |
| Categories.FirstMatchIff | app.py:170-173 | for distinct categories other than "otros", the loop answers rule k's category iff rule k is the first match, and "otros" iff no rule matches |
| Categories.KeywordFirstMatch | app.py:168-173 | the keyword classifier answers rule k's category iff rule k of `CATEGORIAS` is the first to match the lower-cased text, and "otros" iff none matches |
| Categories.KeywordIgnoresCase | app.py:169 | the keyword classifier answers the same for a text and its lower-cased form |
| Categories.EmptyIsOtros | app.py:168-173 | the empty text is classified "otros" |
| Categories.PedidoIsLogistica | tests/test_app.py:7 | "Mi pedido no llegó" is classified logística |
| Urgency.AnyMatchesSpec | app.py:163-166 | returning true at the first matching pattern decides whether any pattern matches |
| Urgency.AnyMatches | app.py:163-166 | the loop over the patterns: true at the first pattern that matches, false after the last |
| Urgency.EsUrgente | app.py:161-166 | the loop over `UrgencyPatterns` (the four patterns of app.py:30-35, in order) applied to the lower-cased text |
| Urgency.EsUrgenteIff | app.py:161-166 | a text is urgent iff one of the four urgency patterns matches its lower-cased form |
| Urgency.EmptyNotUrgent | app.py:161-166 | the empty text is not urgent |
| Urgency.UrgencyIgnoresCase | app.py:162 | a text and its lower-cased form are equally urgent |
| Urgency.UrgentWord | app.py:31 | any urgency word standing as a whole word, anywhere in the text, makes the text urgent |
| Urgency.EsUrgenteExample | tests/test_app.py:15 | "¡Es urgente!" is urgent |
| Urgency.NoFuncionaExample | tests/test_app.py:16 | "No funciona el producto" is urgent |
| Urgency.ErrorEnMiPagoIsUrgent | app.py:32 | "Error en mi pago" is urgent through the failure word "error" |
| Urgency.NivelDosIsUrgent | app.py:34 | "ticket nivel 2" is urgent |
| Urgency.SpacedBangsAreUrgent | app.py:33 | "ayuda! !" is urgent |
| Urgency.InvertedBangsNotUrgent | app.py:33 | "¡¡" is not urgent |
| Hybrid.CandidateLabels | app.py:187 | the candidate labels are the keys of `CATEGORIAS`, in order |
| Hybrid.HypothesisTemplates | app.py:181-183 | one hypothesis sentence per candidate label, in label order: template i is "Este ticket trata sobre <label i>." |
| Hybrid.TopPrediction | app.py:199-200 | the top label and score exist exactly when inference did not raise and both lists are non-empty, and they are the first entries |
| Hybrid.Umbral | app.py:193-201 | the threshold of a label: logística 0.4, otros 0.3, every other label the default 0.5; every threshold lies between 0.3 and 0.5 |
| Hybrid.ModelProposal | app.py:185-200 | no proposal without a model; otherwise the top label and score of the inference on the candidate labels and templates |
| Hybrid.Confident | app.py:203 | a proposal is kept when its score reaches the threshold of its label |
| Hybrid.ClasificarTexto | app.py:175-210 | a confident model proposal is returned as it is; in every other case the keyword answer is returned |
| Hybrid.FallbackWithoutModel | app.py:175-210 | with no model loaded, or when inference raises, the answer is the keyword classifier's |
| Hybrid.ThresholdGate | app.py:193-207 | the top label is returned when its score reaches its threshold and the keyword answer below it; when the two differ, the label is returned iff the threshold is reached |
| Hybrid.DecisionSources | app.py:175-210 | the answer is always the keyword answer or a confident model proposal |
| Hybrid.ThresholdBounds | app.py:193-204 | a score of 0.5 or more always keeps the model's label; a score under 0.3 never does |
| Hybrid.OtrosNotCandidate | app.py:187 | "otros" is not offered to the model |
| Tickets.AssignedTo | app.py:64 | a ticket goes to "Agente Humano" iff it is urgent, and to "Sistema Automático" iff it is not |
| Tickets.ZendeskPayload | app.py:79-90 | the priority is "urgent" iff the ticket is urgent; the subject carries the label and the urgency mark; the comment is the description; the tags are "auto_classified" and the label; the type is "problem" |
| Tickets.ZendeskOutcome | app.py:100-120 | a ticket is issued iff the reply is a 201 whose JSON carries an id; it then carries Zendesk's id, with status and stamp defaulting to "open" and the local time; any other code gives "Error <code>: <text>"; a transport failure gives its message |
| Tickets.TicketSystem.Valid | app.py:57-71 | every ticket is assigned by its urgency; a simulated issuer holds ids 1000, 1001, ... in order with the next id after them; a Zendesk issuer holds only Zendesk tickets and never moves the next id |
| Tickets.TicketSystem.constructor | app.py:45-48 | the mode is the configured one, "simulated" by default; there are no tickets and the next id is 1000 |
| Tickets.TicketSystem.LimpiarHistorial | app.py:39-44 | from any state, the history is empty, the next id is 1000 and the answer is true |
| Tickets.TicketSystem.CreateTicket | app.py:50-55 | simulated mode appends an open ticket with the next id and counts on; Zendesk mode appends exactly the ticket Zendesk accepted and nothing on an error; the invariant is kept |
| Tickets.TicketSystem.CreateSimulatedTicket | app.py:57-71 | the new ticket has the old next id, status "open", the assignment given by the urgency and source "Simulado"; it is appended and the id advances by one |
| Tickets.TicketSystem.CreateZendeskTicket | app.py:73-120 | the outcome is the reply's outcome for the built payload; only an accepted ticket is appended; the id counter is untouched |
| Tickets.TicketSystem.GetTickets | app.py:122-123 | the issued tickets in issue order; a simulated issuer's ids strictly increase and their number is next id minus 1000 |
| Tickets.SimulatedIdsIncrease | app.py:57-71 | a simulated issuer's ids are distinct, increase with the order of issue and lie between 1000 and the next id |
| Tickets.SimulatedTicketAfterReset | tests/test_app.py:38-47 | after a reset an urgent logística ticket gets id 1000, status "open", assignment "Agente Humano" and source "Simulado" |
| Tickets.ResetCreateTwiceReset | tests/test_e2e.py:35-44 | reset, two tickets (ids 1000 and 1001, two tickets listed), reset again: no ticket, next id 1000 |
| Tickets.ZendeskRefused | app.py:115-117 | a 500 reply "boom" yields "Error 500: boom", and no ticket is recorded |
| Tickets.ZendeskAccepted | app.py:100-114 | a 201 reply with id 77 and no other field appends an open ticket 77 from Zendesk, stamped with the local time |
| Batch.HeaderKeyLength | app.py:224 | normalizing a header never lengthens it |
| Batch.HeaderKey | app.py:224 | the normalized header `col.strip().lower()` |
| Batch.HeaderKeys | app.py:223-224 | one key per column, in order: key i is the normalized header of column i |
| Batch.DescriptionColumn | app.py:222-228 | the position of the first normalized header equal to "descripcion", if any |
| Batch.KeyOfNormalHeader | app.py:224 | a header with no upper-case letter and no surrounding white space is its own key |
| Batch.DescriptionColumnSpec | app.py:222-228 | the search finds the first column whose stripped, lower-cased header is "descripcion", and finds nothing iff no header is |
| Batch.FindDescriptionColumn | app.py:222-228 | the header loop computes the description column search |
| Batch.ColumnValues | app.py:243 | the cells of the description column, one per row |
| Batch.Duplicates | app.py:231 | the number of cells equal to some earlier cell; the first cell never counts |
| Batch.DuplicatesSpec | app.py:231 | the duplicate count is the number of cells minus the number of distinct values |
| Batch.NoDuplicatesIffDistinct | app.py:231-233 | no duplicates are reported iff no two descriptions are equal |
| Batch.SetColumn | app.py:250-251 | assigning a column overwrites it in place or appends it, sets its cell in every row and leaves every other cell alone |
| Batch.WithColumn | app.py:250-251 | the header after assigning a column: unchanged when the column exists, extended by its name otherwise |
| Batch.FilterSpec | app.py:254 | the urgent rows are exactly the flagged rows in their original order |
| Batch.FilterEmptyIff | app.py:254-255 | the urgent subset is empty iff no row is flagged |
| Batch.Filter | app.py:254 | `df[df['urgente']]`: the rows whose flag is set, never more rows than the input |
| Batch.UrgentName | app.py:238 | "tickets_urgentes_<timestamp>.csv" |
| Batch.OutputName | app.py:236-237 | the given name, or "tickets_clasificados_<timestamp>.csv" when none or the empty name is given |
| Batch.DefaultNamesDiffer | app.py:235-238 | the default result file and the urgent file of one run never share a name |
| Batch.Descriptions | app.py:244 | every description is `str()` of its cell |
| Batch.Render | app.py:244 | `str()` of a cell: the text itself, "True"/"False", or "nan" for a missing cell |
| Batch.CategoryCells | app.py:250 | the `categoria` column holds the label of each row's category |
| Batch.FlagCells | app.py:251 | the `urgente` column holds each row's flag |
| Batch.Classified | app.py:250-251 | the table after `df['categoria'] = ...` then `df['urgente'] = ...`, one row per input row |
| Batch.RowCategories | app.py:243-248 | `clasificar_texto` of `str()` of every description, one per row |
| Batch.UrgencyFlags | app.py:243-249 | `es_urgente` of `str()` of every description, one per row |
| Batch.Assemble | app.py:250-261 | the result after the loop: the classified table under its name, the urgent file when some row is flagged, the row count, the urgent count and the duplicate count |
| Batch.Procesar | app.py:213-264 | the schema error when no column normalizes to "descripcion"; otherwise the assembled result of the row decisions |
| Batch.RowDecisions | app.py:243-249 | row i's category and flag come from `str()` of row i's description through `clasificar_texto` and `es_urgente` |
| Batch.ClasificarFilas | app.py:240-249 | the row loop yields, in row order, the decision for `str()` of every description |
| Batch.ProcesarSchemaError | app.py:222-228 | the run fails with the schema message iff no header normalizes to "descripcion" |
| Batch.AssembleRows | app.py:250-252 | the result file has the given or default name; its header is the input header with "categoria" and then "urgente" appended only when absent; it keeps every row and every input column in place; each row gets its category label and urgency flag |
| Batch.AssembleUrgent | app.py:254-261 | the urgent file is absent iff no row is flagged; otherwise it has the urgent name, the same columns and exactly the flagged rows in order; the totals count rows and flagged rows |
| Batch.ProcesarRows | app.py:240-252 | with a description column, the result header is the input header plus just the missing "categoria"/"urgente" columns, every row and input column is kept, and each row gets its category label and urgency flag |
| Batch.ProcesarUrgent | app.py:254-261 | with a description column, the urgent file and count reflect exactly the urgent rows |
| Batch.ProcesarDuplicates | app.py:231 | the duplicate count is the number of rows whose description repeats an earlier one |
| Batch.ProcesarTickets | app.py:213-264 | the method (header loop, row loop, assembly) computes the pipeline's specification `Procesar` |
| Batch.DescripcionIsItsOwnKey | app.py:224 | the header "descripcion" normalizes to itself |
| Batch.IdIsNotDescription | app.py:224 | the header "id" does not normalize to "descripcion" |
| Batch.DescriptionAt | app.py:222-226 | a header whose column k is the first to normalize to "descripcion" has its descriptions in column k |
| Batch.IdDescripcionHeader | tests/test_e2e.py:20 | under the header "id,descripcion" the descriptions are column 1 |
| Batch.EndToEndTable | tests/test_e2e.py:20 | the four-row table of the end-to-end file |
| Batch.EndToEndCounts | tests/test_e2e.py:18-33 | the end-to-end file gives four rows, both result columns, the default output name, and an urgent file with at least one row |
| Batch.UnitTestTable | tests/test_app.py:21-28 | the six-row table of the batch unit test |
| Batch.UnitTestCounts | tests/test_app.py:20-35 | the unit-test file gives six rows, both result columns, and an urgent file with at least one row |
| Individual.Status | app.py:281 | the red status line is shown iff the ticket is urgent, and the green line otherwise |
| Individual.YesNo | app.py:283 | the urgency is shown as "SÍ" iff it is urgent, "NO" otherwise |
| Individual.StatusAgreesWithAssignment | app.py:281 | the red status line is shown iff the ticket is assigned to a human agent |
| Individual.ProcesarTicketIndividual | app.py:271-283 | a blank text gives three empty answers and issues nothing; otherwise it answers the label, "SÍ"/"NO" and the status line, and issues the ticket as `create_ticket` does in the issuer's mode |

## Left out

- The web interface (Gradio) and the command-line entry point are not modelled: they are presentation around `procesar_tickets` and `procesar_ticket_individual`.
- Loading the zero-shot model is not modelled. Which model loads, and whether any loads, is the `Classifier` value. Inference is an oracle.
- The HTTP request to Zendesk, its URL, credentials and headers, and reading the environment variables are not modelled. The reply is an oracle, and the mode is a constructor argument.
- The JSON snapshot `save_to_json` written after every change is not modelled: it is file output. An I/O error it raises is not modelled either.
- Reading and writing the CSV files is not modelled. A file is its name and its table.
- Logging is not modelled.
- The clock is not modelled: `now` and `timestamp` are parameters.
- Unicode is only partly covered. `lower()`, `\w` and `re.IGNORECASE` are exact on Latin-1 (U+0000..U+00FF). Above it, letters are not case-folded and are not word characters. `\s` is exact everywhere.
- The regular-expression engine is not modelled: each pattern is the set of literals it matches.
- Tickets.Ticket: the category is a `Category`. In the source, `create_ticket` accepts any string; every caller in the core passes a classifier answer.
- Tickets.TicketSystem.GetTickets: returns a copy of the list, not the list itself, so the aliasing of the returned list is not modelled.
- Batch.Value: a cell is text, a boolean or missing. A number is represented by its `str()` spelling, and pandas' other dtypes are not modelled.
- Batch.ClasificarFilas: takes the two decisions as function values: `clasificar_texto` with the loaded model, and `es_urgente`.
- Batch.FindDescriptionColumn: normalizes every header before its loop rather than one at a time inside it. The result is the same.
- Batch.Procesar: an exception from reading the CSV file, re-raised by the source, is not modelled. The missing-column `ValueError` is `SchemaError`.
- Batch: duplicated header names (which pandas renames while reading) are not modelled.
- The concrete facts that need a negative search over a literal text are not proved: "Consulta sobre mi pedido" is not urgent; the keyword answers for the test texts other than "Mi pedido no llegó", such as "Error en mi pago" → pagos and "Pantalla rota" → producto defectuoso (each needs every earlier rule to fail); the "otros" answers and the false urgency flags of the test files. The general properties they are instances of are proved (`KeywordFirstMatch`, `EsUrgenteIff`, `RowDecisions`); the row counts, the result columns and the presence of the urgent file that the two batch tests check are proved (`EndToEndCounts`, `UnitTestCounts`).
- Hybrid.HypothesisTemplates: passes a list of sentences where the inference pipeline takes a single template. What the pipeline does with it, or that it raises, is left to the oracle (`Raised` covers an exception).
