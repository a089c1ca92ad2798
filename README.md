# Laboratory inventory front end: list filters and registration forms

This project models the client-side decision logic of four pages in the React front end of a laboratory inventory system:

- **Maintenance list** (`ManutencoesPage`). The filter over the loaded maintenance records uses the search text, the status and type selects and the `equipamentoId` route parameter. The page also has footer counters by status, shows the Concluir/Excluir actions only for scheduled records, and has tables from status, type and priority codes to labels and CSS classes.
- **Equipment list** (`EquipamentosListPage`). The filter uses the search text and the status and category selects. The page builds a list of distinct categories for the category select, and has status tables.
- **Maintenance form** (`CadastroManutencaoPage`). It covers the initial field state and the change handler. When a record is loaded for editing, its timestamp is cut down to a date. The submit handler runs its checks in order and returns at the first failure; otherwise it picks POST or PUT from the presence of an id and sends an empty `custo` as 0.
- **Equipment form** (`CadastroEquipamentoPage`). It covers the initial field state, the status options and the change handler. When a record is loaded for editing, two timestamps are cut down to dates. The submit handler checks nome, then codigo, and picks POST or PUT.

Layout, one module per file:

| file | module | models |
|---|---|---|
| `text.dfy` | `Text` | JavaScript truthiness of an optional string, `toLowerCase` (ASCII), `includes`, `trim`, `split(sep)[0]` |
| `seqs.dfy` | `Seqs` | `Array.prototype.filter` and its facts: order-preserving subsequence, membership, narrowing, disjoint counts |
| `forms.dfy` | `Forms` | what both forms share: the field map, date normalisation, request, outcome, the choice of method and URL |
| `manutencoes.dfy` | `Manutencoes` | the maintenance list |
| `equipamentos.dfy` | `Equipamentos` | the equipment list |
| `cadastro_manutencao.dfy` | `CadastroManutencao` | the maintenance form: a class `ManutencaoForm` over a `map<string, string>` |
| `cadastro_equipamento.dfy` | `CadastroEquipamento` | the equipment form: a class `EquipamentoForm` over a `map<string, string>` |

Records from the backend are JSON objects whose properties may be null or missing.

- In the list pages, every optional property is an `Option<string>`.
- In the forms, the state object is a `map<string, string>`, and a missing key stands for null or undefined. Both are falsy, and calling `.trim()` on either throws a TypeError.
- The submit handlers therefore end in one of three ways: an alert with a message, a thrown TypeError (no alert), or a request.

Things the code does that a reader may not expect:

- **The empty search does not show every record.** Each search test is written `field?.toLowerCase().includes(...)`. So a record with none of the four searched fields present is hidden, even when the search box is empty and no select is set (`Manutencoes.UnfilteredKeepsSearchable`). The same holds for the equipment list.
- **Search fields.** The equipment search looks at nome, codigo, fabricante and modelo, not at the category.
- **Two type labels are missing from the list.** The maintenance form offers the types limpeza and revisao, but the list's `getTipoText` knows only preventive, corrective and calibration. So the list shows those two as raw codes, and its type select cannot filter by them (`CadastroManutencao.OptionsAgainstList`).
- **A missing field throws.** In the maintenance form, a loaded record whose `descricao` is null makes `handleSubmit` throw instead of alerting. In the equipment form, the same happens when `nome` or `codigo` is null.

## Model

| member | source | states |
|---|---|---|
| `Text.LowerChar` | frontend/src/pages/EquipamentosListPage.jsx:99 | the lower-cased character is never an upper-case ASCII letter; upper-case letters move by 32, all else is unchanged |
| `Text.Lower` | frontend/src/pages/EquipamentosListPage.jsx:99 | `toLowerCase` keeps the length, moves every upper-case ASCII letter to its lower-case letter, and keeps every other character |
| `Text.LowerIdempotent` | frontend/src/pages/ManutencoesPage.jsx:179 | lower-casing twice is lower-casing once |
| `Text.Contains` | frontend/src/pages/EquipamentosListPage.jsx:99-102 | `includes` fails when the term is longer than the string, and holds when the term is a prefix of it |
| `Text.ContainsIff` | frontend/src/pages/EquipamentosListPage.jsx:99-102 | `includes` holds exactly when the term occurs at some position of the string |
| `Text.ContainsEmpty` | frontend/src/pages/ManutencoesPage.jsx:179-182 | every string includes the empty term |
| `Text.Includes` | frontend/src/pages/ManutencoesPage.jsx:179-182 | `field?.toLowerCase().includes(term.toLowerCase())` fails for an absent field and for a term longer than the field, and holds when the lower-cased term starts the lower-cased field |
| `Text.IncludesCaseInsensitive` | frontend/src/pages/ManutencoesPage.jsx:179-182 | lower-casing the search term does not change whether a field matches |
| `Text.IncludesEmptyTerm` | frontend/src/pages/ManutencoesPage.jsx:179-182 | with the empty term, a field matches exactly when it is present (optional chaining) |
| `Text.IncludesIff` | frontend/src/pages/EquipamentosListPage.jsx:99-102 | a field matches exactly when it is present and the lower-cased term occurs in the lower-cased field |
| `Text.Trim` | frontend/src/pages/CadastroManutencaoPage.jsx:106 | `trim()` returns a slice of the string with only white space before and after it, and the slice neither starts nor ends with white space |
| `Text.TrimStart` | frontend/src/pages/CadastroManutencaoPage.jsx:106 | the result is a suffix of the input, everything removed is white space, and it does not start with white space |
| `Text.TrimEnd` | frontend/src/pages/CadastroManutencaoPage.jsx:106 | the result is a prefix of the input, everything removed is white space, and it does not end with white space |
| `Text.TrimEmptyIff` | frontend/src/pages/CadastroEquipamentoPage.jsx:93 | `trim()` gives the empty string exactly when the string is all white space |
| `Text.BeforeFirst` | frontend/src/pages/CadastroManutencaoPage.jsx:74 | `split('T')[0]` is a prefix without 'T' that stops at the first 'T' or at the end |
| `Text.BeforeFirstNoSep` | frontend/src/pages/CadastroEquipamentoPage.jsx:65-66 | a string without 'T' is its own first piece |
| `Text.BeforeFirstIdempotent` | frontend/src/pages/CadastroManutencaoPage.jsx:74 | taking the first piece twice is taking it once |
| `Seqs.Filter` | frontend/src/pages/ManutencoesPage.jsx:177 | `filter` returns an order-preserving subsequence holding exactly the elements that satisfy the predicate, each as many times as it occurs in the input |
| `Seqs.FilterExt` | frontend/src/pages/ManutencoesPage.jsx:177-189 | predicates that agree on every element give the same result |
| `Seqs.FilterNarrowing` | frontend/src/pages/ManutencoesPage.jsx:184-188 | a stronger predicate keeps a subsequence of what a weaker one keeps |
| `Seqs.FilterDisjointCounts` | frontend/src/pages/ManutencoesPage.jsx:398-400 | the counts of three mutually exclusive predicates add up to at most the length |
| `Forms.WithDateOnly` | frontend/src/pages/CadastroManutencaoPage.jsx:72-75 | the loaded record keeps its keys plus the date key and every other value; the date value is `''` when the loaded value is absent or empty, and otherwise is the loaded value up to its first 'T' (a prefix without 'T', followed in the loaded value by 'T' or by nothing) |
| `Forms.WithDateOnlyIdempotent` | frontend/src/pages/CadastroManutencaoPage.jsx:74 | normalising an already-normalised record changes nothing |
| `Forms.WithDateOnlyCommutes` | frontend/src/pages/CadastroEquipamentoPage.jsx:63-67 | normalising two different date fields gives the same record in either order |
| `Forms.Target` | frontend/src/pages/CadastroManutencaoPage.jsx:118-119 | PUT exactly when the route id is truthy, to `collection/id`; otherwise POST to the collection |
| `Forms.TargetRecordUnderCollection` | frontend/src/pages/CadastroEquipamentoPage.jsx:105 | the collection URL is a proper prefix of every record URL |
| `Forms.TargetInjective` | frontend/src/pages/CadastroManutencaoPage.jsx:118 | two ids that give the same update target are the same id |
| `Manutencoes.Filtered` | frontend/src/pages/ManutencoesPage.jsx:177-189 | the result is an order-preserving subsequence of the records; a record is kept exactly when it passes search, status, type and route filters, and as many times as it was loaded; every kept record has the selected status and type and the route's equipment id |
| `Manutencoes.SearchIgnoresCase` | frontend/src/pages/ManutencoesPage.jsx:178-182 | replacing the search term by its lower-case form gives the same list |
| `Manutencoes.UnfilteredKeepsSearchable` | frontend/src/pages/ManutencoesPage.jsx:178-182 | with no search and no filter, the list keeps exactly the records with a present descricao, nome_equipamento, codigo_equipamento or responsavel |
| `Manutencoes.NarrowingShrinks` | frontend/src/pages/ManutencoesPage.jsx:184-188 | setting a status, type or route filter yields a subsequence of the list without it |
| `Manutencoes.CountStatus` | frontend/src/pages/ManutencoesPage.jsx:398-400 | a status counter is the number of records with that status, so it never exceeds the number of records |
| `Manutencoes.CountIsMultiplicity` | frontend/src/pages/ManutencoesPage.jsx:398-400 | the length of the status filter equals the number of times the status occurs among the records' statuses |
| `Manutencoes.StatusCountsBounded` | frontend/src/pages/ManutencoesPage.jsx:398-400 | the agendada, em_andamento and concluida counters add up to at most the number of records |
| `Manutencoes.FooterOf` | frontend/src/pages/ManutencoesPage.jsx:394-402 | the total is the list's length; the breakdown is shown exactly when the list is not empty, and its three counters are the numbers of records scheduled, in progress and completed, adding up to at most the total |
| `Manutencoes.CardActions` | frontend/src/pages/ManutencoesPage.jsx:363-388 | Editar is always offered; Concluir and Excluir are offered exactly when the status is agendada; otherwise only Editar |
| `Manutencoes.StatusText` | frontend/src/pages/ManutencoesPage.jsx:121-134 | the four status codes get a non-empty label that differs from the code; every other value is returned unchanged |
| `Manutencoes.StatusColor` | frontend/src/pages/ManutencoesPage.jsx:106-119 | the class is non-empty exactly for the four status codes and then starts with `status-`; otherwise `''` |
| `Manutencoes.StatusTablesInjective` | frontend/src/pages/ManutencoesPage.jsx:106-134 | distinct status codes get distinct labels and distinct classes |
| `Manutencoes.TipoText` | frontend/src/pages/ManutencoesPage.jsx:136-147 | the three type codes get a non-empty label that differs from the code; every other value is returned unchanged |
| `Manutencoes.PrioridadeColor` | frontend/src/pages/ManutencoesPage.jsx:149-162 | the class is non-empty exactly for the four priority codes, and is then `prioridade-` followed by the code; otherwise `''` |
| `Manutencoes.SelectsAgreeWithTables` | frontend/src/pages/ManutencoesPage.jsx:263-284 | the status and type selects offer exactly the codes the tables know, each under the label the cards show |
| `Equipamentos.Filtered` | frontend/src/pages/EquipamentosListPage.jsx:97-108 | the result is an order-preserving subsequence of the records; a record is kept exactly when it passes search, status and category filters, and as many times as it was loaded; every kept record has the selected status and category |
| `Equipamentos.SearchIff` | frontend/src/pages/EquipamentosListPage.jsx:98-102 | a record matches the search exactly when the lower-cased term occurs in its lower-cased nome, codigo, fabricante or modelo; absent fields never match |
| `Equipamentos.SearchIgnoresCase` | frontend/src/pages/EquipamentosListPage.jsx:98-102 | replacing the search term by its lower-case form gives the same list |
| `Equipamentos.NarrowingShrinks` | frontend/src/pages/EquipamentosListPage.jsx:104-107 | setting a status or category filter yields a subsequence of the list without it |
| `Equipamentos.Categorias` | frontend/src/pages/EquipamentosListPage.jsx:110 | the categories have no duplicates and no empty value; every truthy category of a record is listed, and every listed value is some record's category |
| `Equipamentos.CategoriasFirstAppearance` | frontend/src/pages/EquipamentosListPage.jsx:110 | the categories are listed in the order of their first occurrence among the records |
| `Equipamentos.StatusText` | frontend/src/pages/EquipamentosListPage.jsx:69-82 | the four status codes get a non-empty label that differs from the code; every other value is returned unchanged |
| `Equipamentos.StatusColor` | frontend/src/pages/EquipamentosListPage.jsx:54-67 | the class is non-empty exactly for the four status codes, and is then `status-` followed by the code; otherwise `''` |
| `Equipamentos.StatusTablesInjective` | frontend/src/pages/EquipamentosListPage.jsx:54-82 | distinct status codes get distinct labels and distinct classes |
| `CadastroManutencao.Initial` | frontend/src/pages/CadastroManutencaoPage.jsx:14-24 | the nine form fields exist; tipo is preventiva, prioridade is media, every other field is empty |
| `CadastroManutencao.OptionsAgainstList` | frontend/src/pages/CadastroManutencaoPage.jsx:28-41 | the initial tipo and prioridade are among the options; every priority option gets a badge class in the list; a type option gets the same label in the list exactly when it is one of the list's three known types |
| `CadastroManutencao.Loaded` | frontend/src/pages/CadastroManutencaoPage.jsx:72-75 | the loaded record is kept except data_agendada, which is `''` when the loaded value is absent or empty and otherwise is the loaded value up to its first 'T' |
| `CadastroManutencao.LoadedIdempotent` | frontend/src/pages/CadastroManutencaoPage.jsx:72-75 | normalising a loaded record twice is normalising it once |
| `CadastroManutencao.Validate` | frontend/src/pages/CadastroManutencaoPage.jsx:100-114 | a missing or empty equipamento_id is reported first; then a missing descricao throws; then an all-white-space descricao is reported; then an empty data_agendada; otherwise nothing is reported |
| `CadastroManutencao.InitialRefused` | frontend/src/pages/CadastroManutencaoPage.jsx:101-104 | an untouched form is refused with 'Selecione um equipamento' |
| `CadastroManutencao.Payload` | frontend/src/pages/CadastroManutencaoPage.jsx:118-129 | PUT to `/manutencoes/{id}` exactly when there is an id, else POST to `/manutencoes`; the body carries every field as a string, and custo as 0 when empty or absent |
| `CadastroManutencao.ManutencaoForm.constructor` | frontend/src/pages/CadastroManutencaoPage.jsx:14-24 | the state starts as the initial form |
| `CadastroManutencao.ManutencaoForm.Change` | frontend/src/pages/CadastroManutencaoPage.jsx:89-95 | the named field takes the new value; every other field keeps its presence and value |
| `CadastroManutencao.ManutencaoForm.Load` | frontend/src/pages/CadastroManutencaoPage.jsx:70-75 | the state becomes the normalised loaded record |
| `CadastroManutencao.ManutencaoForm.Submit` | frontend/src/pages/CadastroManutencaoPage.jsx:97-130 | a request is sent exactly when no check fails; a failure is reported as the first failing check; the request is the form's payload |
| `CadastroEquipamento.Initial` | frontend/src/pages/CadastroEquipamentoPage.jsx:11-25 | the thirteen form fields exist; status is ativo, every other field is empty |
| `CadastroEquipamento.StatusOptionsAgreeWithList` | frontend/src/pages/CadastroEquipamentoPage.jsx:44-49 | the options are exactly ativo, inativo, manutencao and defeito, each labelled as the list labels it; the initial status is one of them |
| `CadastroEquipamento.Loaded` | frontend/src/pages/CadastroEquipamentoPage.jsx:63-67 | the loaded record is kept except data_aquisicao and garantia_ate; each is `''` when its loaded value is absent or empty and otherwise is that value up to its first 'T' |
| `CadastroEquipamento.LoadedIdempotent` | frontend/src/pages/CadastroEquipamentoPage.jsx:63-67 | normalising a loaded record twice is normalising it once |
| `CadastroEquipamento.Validate` | frontend/src/pages/CadastroEquipamentoPage.jsx:92-101 | a missing nome throws and an all-white-space nome is reported, before anything about codigo; then a missing codigo throws and an all-white-space codigo is reported; otherwise nothing is reported |
| `CadastroEquipamento.InitialRefused` | frontend/src/pages/CadastroEquipamentoPage.jsx:93-96 | an untouched form is refused with the nome message |
| `CadastroEquipamento.Payload` | frontend/src/pages/CadastroEquipamentoPage.jsx:105-113 | PUT to `/equipamentos/{id}` exactly when there is an id, else POST to `/equipamentos`; the body is the form, field for field |
| `CadastroEquipamento.EquipamentoForm.constructor` | frontend/src/pages/CadastroEquipamentoPage.jsx:11-25 | the state starts as the initial form |
| `CadastroEquipamento.EquipamentoForm.Change` | frontend/src/pages/CadastroEquipamentoPage.jsx:81-87 | the named field takes the new value; every other field keeps its presence and value |
| `CadastroEquipamento.EquipamentoForm.Load` | frontend/src/pages/CadastroEquipamentoPage.jsx:61-67 | the state becomes the normalised loaded record |
| `CadastroEquipamento.EquipamentoForm.Submit` | frontend/src/pages/CadastroEquipamentoPage.jsx:89-114 | a request is sent exactly when no check fails; a failure is reported as the first failing check; the request is the form's payload |

## Left out

- Every `fetch` call and the handling of its response are left out. So are `alert` (the model returns its message), `prompt`, `confirm`, `navigate`, `console.error` and the `loading` flags. They are browser and network I/O.
- `handleConcluirManutencao` and `handleDelete` (frontend/src/pages/ManutencoesPage.jsx:56-104) are left out: each is a prompt or confirm followed by a request. Only the condition that offers their buttons is modelled.
- JSX rendering, SVG and CSS are left out. Only the code-to-class tables are modelled.
- `formatCurrency` and `formatDate` are left out because they depend on locale formatting.
- `parseFloat` is left out because it is floating point. A non-empty `custo` of the maintenance form (frontend/src/pages/CadastroManutencaoPage.jsx:128) is carried as `Json.JParseFloat(text)`.
- Browser-side validation is outside the model. The inputs marked `required` (frontend/src/pages/CadastroManutencaoPage.jsx:213, 253, 272; frontend/src/pages/CadastroEquipamentoPage.jsx:179, 192) make the browser block an empty form before `handleSubmit` runs. So the alerts of `CadastroManutencao.InitialRefused` and `CadastroEquipamento.InitialRefused` are what `handleSubmit` does, not necessarily what a user sees.
- `Text.Lower` lower-cases the ASCII letters only. Full Unicode case mapping would need Unicode tables.
- `Manutencoes.MatchesEquipamento`: does not model the loose `==` of frontend/src/pages/ManutencoesPage.jsx:186, because ids are modelled as strings. A numeric id from the backend and the route's string id are compared as strings.
- JSON values that are not strings, such as numbers and booleans, are modelled as strings, and null as a missing key. For example, a numeric `equipamento_id` of 0 is falsy in the page but `"0"` is truthy in the model.
- The lookup of the selected equipment for the page heading (frontend/src/pages/ManutencoesPage.jsx:29-32) is left out. It is a loose-`==` `find` over fetched data, used only for display.
- The pending-maintenance warning on equipment cards (frontend/src/pages/EquipamentosListPage.jsx:234) is left out: it is a one-line render guard.
- The fixed `categorias` list of the equipment form (frontend/src/pages/CadastroEquipamentoPage.jsx:27-42) is left out. It only feeds a select and takes part in no check.
- The backend (backend/Backend.py), the login pages, the dashboard, profile and home pages, routing, the sidebar and header, the e-mail history (browser storage) and the request simulation (timer) are not part of this model. Neither are the material pages (list, registration, stock withdrawal).
- No material expiry, status derivation, stock arithmetic or sorting is modelled: none of it appears in the four pages.
