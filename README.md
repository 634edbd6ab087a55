# Health Sales AI — prospect enrichment and pipeline, in Dafny

A model of the core of Health Sales AI, a sales tool for teams that sell to
Brazilian healthcare facilities. A salesperson types a CNPJ (the 14-digit
Brazilian company tax ID); the system validates it, fetches the company's
record from the BrasilAPI company registry, refuses companies whose
registration is not "ATIVA", remaps the record onto the prospect's keys and
then tries, without ever failing the call, to overlay facility data from the
DataSUS CNES registry (facility type, bed counts, equipment). Prospects are
then shown on a pipeline board, one column per status, with summary counters
and per-card labels, and listed on a dashboard page with their CNPJ masked as
`##.###.###/####-##`.

The model is split by source file:

| file | module | what it models |
|---|---|---|
| `wrappers.dfy` | `Wrappers` | `Option`, standing for JavaScript's `null`/`undefined` |
| `text.dfy` | `Text` | ASCII digits (`\d`), truthiness of optional strings, `String(n)` for integers and its read-back |
| `types.dfy` | `ProspectTypes` | the records the core reads and writes: registry and CNES responses, the prospect's keys, the board's view of a prospect |
| `cnpj.dfy` | `Cnpj` | cleaning and validating a CNPJ |
| `cnes_locator.dfy` | `CnesLocator` | the two-strategy CNES lookup, with each HTTP attempt as an oracle answer |
| `cnes_transform.dfy` | `CnesTransform` | normalising a CNES record: first-present-key resolution, bed totals, list fields |
| `cnpj_transform.dfy` | `CnpjTransform` | remapping a registry record onto the prospect's registry keys |
| `enrichment.dfy` | `Enrichment` | the orchestrator: three hard failures, then the soft CNES overlay; also the requests sent |
| `pipeline_view.dfy` | `PipelineView` | grouping into columns, collapsed columns, summary counters, card labels |
| `dashboard_page.dfy` | `DashboardPage` | the CNPJ display mask and the count captions |

External services are parameters. The registry is a function from the
cleaned CNPJ to a `RegistryAttempt` (the record, a non-2xx status, or a
thrown error with or without a message); the CNES registry is a function from
a `Query` (by CNPJ, or by trade name and optional state) to an `Attempt` (a
failure, or a body that is a bare array or an object with an optional
`estabelecimentos` key). The imperative operations, `CnesLocator.FetchCnesData`
and `Enrichment.EnrichProspect`, are methods with early returns that also
return the requests they sent, and are proved equal to the functions
`Located`/`QueriesIssued` and `Enrich`/`RequestsSent`, whose properties are
proved as lemmas.

A prospect record is the pair of its registry keys and its optional CNES keys
(`Prospect(registry, cnes)`), so copying the CNES keys onto it can never
overwrite a registry key. The source's two key sets are disjoint, which is what
makes this split faithful. The registry remap (src/lib/enrichment.ts:143-184)
writes the 15 keys `cnpj`, `razao_social`, `nome_fantasia`, `porte`,
`capital_social`, `natureza_juridica`, `situacao_cadastral`, `data_abertura`,
`atividade_principal`, `atividades_secundarias`, `endereco`, `telefone`,
`email`, `socios` and `enrichment_raw`. The CNES remap
(src/lib/enrichment.ts:129-139) writes the 9 keys `cnes_codigo`,
`tipo_estabelecimento`, `subtipo`, `leitos_total`, `leitos_sus`,
`leitos_nao_sus`, `equipamentos`, `habilitacoes` and `dados_cnes_raw`.

The clock (`Date.now()`) is the parameter `now`, and
timestamps are integer milliseconds already parsed from their date strings.

## Model

| member | source | states |
|---|---|---|
| `Text.NatToString` | src/lib/enrichment.ts:154 | the decimal text of a natural number is non-empty, all digits, with no leading zero |
| `Text.IntToString` | src/lib/enrichment.ts:159 | the decimal text of an integer is digits, after a leading `-` exactly when it is negative |
| `Text.NatToStringRoundTrip` | src/lib/enrichment.ts:154 | reading the decimal text back gives the number |
| `Cnpj.CleanCnpj` | src/lib/enrichment.ts:9-11 | the result holds only ASCII digits and is no longer than the input |
| `Cnpj.CleanConcat` | src/lib/enrichment.ts:9-11 | cleaning distributes over concatenation (it works character by character) |
| `Cnpj.CleanKeepsDigits` | src/lib/enrichment.ts:9-11 | a string of digits is left unchanged |
| `Cnpj.CleanIdempotent` | src/lib/enrichment.ts:9-11 | cleaning twice is cleaning once |
| `Cnpj.CleanLengthIsDigitCount` | src/lib/enrichment.ts:9-11 | the cleaned length is the number of digit positions of the input |
| `Cnpj.IsValidCnpj` | src/lib/enrichment.ts:13-15 | a CNPJ is valid exactly when the input holds 14 digit positions, wherever they sit; the check digits are never verified |
| `Cnpj.CleanDropsSeparator` | src/lib/enrichment.ts:9-11 | a non-digit separator vanishes whatever surrounds it |
| `Cnpj.CleanSeparatorThenDigits` | src/lib/enrichment.ts:9-11 | a separator followed by digits leaves exactly those digits |
| `Cnpj.CleanMaskedHead` | src/lib/enrichment.ts:9-11 | `DD.DDD.DDD` cleans to its digit groups |
| `Cnpj.CleanMasked` | src/lib/enrichment.ts:9-11 | a CNPJ in the mask `DD.DDD.DDD/DDDD-DD` cleans to its digit groups in order |
| `Cnpj.MaskedIsValid` | src/lib/enrichment.ts:13-15 | a CNPJ typed in the mask with groups of 2, 3, 3, 4, 2 digits is valid |
| `CnesLocator.FirstItem` | src/lib/enrichment.ts:57-63 | a response yields a record exactly when it succeeded with a non-empty bare array or a non-empty `estabelecimentos` list, and then it is the first element |
| `CnesLocator.NameQuery` | src/lib/enrichment.ts:69-77 | the fallback search exists exactly when the context has a non-empty trade name; it carries the state exactly when the context has a non-empty one |
| `CnesLocator.Located` | src/lib/enrichment.ts:39-98 | the CNPJ search's first record wins; otherwise the name search's, when issued; no record exactly when both find nothing |
| `CnesLocator.QueriesIssued` | src/lib/enrichment.ts:39-98 | the CNPJ search is always issued first; the name search is issued second exactly when the first found nothing and a trade name is known |
| `CnesLocator.FetchCnesData` | src/lib/enrichment.ts:39-98 | the method returns what `Located` specifies and issues exactly the searches `QueriesIssued` lists |
| `CnesLocator.FailureIsNoResult` | src/lib/enrichment.ts:46-66 | a failed attempt (thrown, timed out or non-2xx) has the same effect as an empty answer: no error escapes |
| `CnesTransform.FirstPresent` | src/lib/enrichment.ts:106-112 | a `??` chain yields the first present alternative, and is absent exactly when all are |
| `CnesTransform.ResolvedPastAbsent` | src/lib/enrichment.ts:106-112 | a chain whose head is absent resolves as the chain of the rest |
| `CnesTransform.ResolvedFirstUnique` | src/lib/enrichment.ts:106-112 | a `??` chain has a single possible value |
| `CnesTransform.ListOrEmpty` | src/lib/enrichment.ts:126-127 | an array keeps its items; any other value becomes the empty list |
| `CnesTransform.CnesCode` | src/lib/enrichment.ts:102-104 | the CNES code is absent exactly when no code key is present or the first present one renders as the empty string; otherwise it is that key's text |
| `CnesTransform.BedTotal` | src/lib/enrichment.ts:118-124 | an explicit total wins; otherwise the sum of both parts when both are present; otherwise absent |
| `CnesTransform.TransformCnesData` | src/lib/enrichment.ts:101-140 | each field is the first present alternative of its keys, the total is derived from the parts only when no total key is present, list fields are the arrays or empty, and the raw record is kept |
| `CnesTransform.BedCountsNeverZeroFilled` | src/lib/enrichment.ts:114-124 | a missing bed count stays absent; it is never defaulted to zero |
| `CnesTransform.BedCountScenarios` | src/lib/enrichment.ts:114-124 | 40 SUS beds alone give no total; with 10 non-SUS beds the total is 50; an explicit total of 60 wins over the parts |
| `CnpjTransform.NonEmpty` | src/lib/enrichment.ts:146 | the empty string becomes absent, any other string is kept |
| `CnpjTransform.NonEmptyOrNull` | src/lib/enrichment.ts:174 | the same for a string that may already be absent |
| `CnpjTransform.Activities` | src/lib/enrichment.ts:158-161 | one secondary activity per registry entry, in order, code rendered as text |
| `CnpjTransform.Partners` | src/lib/enrichment.ts:176-181 | one partner per registry entry, in order, field by field |
| `CnpjTransform.TransformCnpjData` | src/lib/enrichment.ts:142-185 | the CNPJ is stored cleaned (14 digits for a valid one); empty trade name, phone and e-mail become absent; a missing secondary-activity or partner list becomes empty; the rest is copied and the raw record kept |
| `CnpjTransform.ActivityCodesRoundTrip` | src/lib/enrichment.ts:154-161 | the activity codes stored as text read back as the registry's numbers |
| `Enrichment.AssignCnes` | src/lib/enrichment.ts:227-229 | the CNES overlay sets the CNES keys and leaves every registry key as it was |
| `Enrichment.Enrich` | src/lib/enrichment.ts:187-239 | an invalid CNPJ, a failed registry lookup (status message, thrown message, or the generic one) and a non-active registration each fail with their message; success exactly when all three gates pass, with the registry remap overlaid by the CNES remap only when a record was located |
| `Enrichment.RequestsSent` | src/lib/enrichment.ts:187-239 | nothing is sent for an invalid CNPJ; otherwise the registry request is first; a failed call sends only that request; a successful call then sends exactly the CNES searches the locator issues, and only a successful call sends any |
| `Enrichment.EnrichProspect` | src/lib/enrichment.ts:187-239 | the method returns what `Enrich` specifies and sends exactly the requests `RequestsSent` lists |
| `Enrichment.CnesNeverDecidesSuccess` | src/lib/enrichment.ts:218-232 | whatever the CNES registry answers, success, error, raw payload and registry fields are the same |
| `Enrichment.CnesOnlyAfterGate` | src/lib/enrichment.ts:188-222 | a CNES search is sent only after the CNPJ was valid, the registry lookup succeeded and the registration was active |
| `Enrichment.ActiveWithoutCnesScenario` | src/lib/enrichment.ts:187-239 | a masked CNPJ, an active registry record and empty CNES answers give a success with the registry fields and no CNES keys |
| `PipelineView.OccurrencesOfDistinct` | src/components/pipeline-view.tsx:11-21 | in a list without repetitions a status occurs once or not at all |
| `PipelineView.EveryStatusHasOneColumn` | src/components/pipeline-view.tsx:11-21 | every status appears exactly once in the column order |
| `PipelineView.ColumnMembers` | src/components/pipeline-view.tsx:63-73 | a prospect is in a column exactly when it is one of the prospects and has that column's status |
| `PipelineView.ColumnConcat` | src/components/pipeline-view.tsx:63-73 | a column keeps the prospects' relative order |
| `PipelineView.ColumnSizesSnoc` | src/components/pipeline-view.tsx:63-73 | one more prospect adds one to the column sizes for each time its status occurs in the order |
| `PipelineView.ColumnSizesEmpty` | src/components/pipeline-view.tsx:63-73 | no prospects, empty columns |
| `PipelineView.ColumnSizesSum` | src/components/pipeline-view.tsx:63-73 | the columns together hold every prospect exactly once |
| `PipelineView.Group` | src/components/pipeline-view.tsx:63-73 | every status gets a column, and each column is exactly the prospects of that status in input order |
| `PipelineView.Toggled` | src/components/pipeline-view.tsx:115-122 | toggling flips the membership of that status and of no other |
| `PipelineView.ToggledTwice` | src/components/pipeline-view.tsx:115-122 | toggling the same column twice restores the collapsed set |
| `PipelineView.PipelineBoard.constructor` | src/components/pipeline-view.tsx:48-50 | the board starts with the lost and inactive columns collapsed |
| `PipelineView.PipelineBoard.ToggleColumn` | src/components/pipeline-view.tsx:115-122 | the collapsed set becomes the toggled old set |
| `PipelineView.WinRateOf` | src/components/pipeline-view.tsx:108-110 | the rate is not applicable exactly when nothing is won or lost; otherwise it is won out of won plus lost |
| `PipelineView.ComputeMetrics` | src/components/pipeline-view.tsx:75-113 | the overdue-contact and no-interaction-in-14-days counters count exactly the non-terminal prospects meeting their condition, and the win rate is built from the won and lost counts |
| `PipelineView.TallyMonotone` | src/components/pipeline-view.tsx:84-106 | a condition implying another never counts more prospects |
| `PipelineView.CountersBoundedByOpen` | src/components/pipeline-view.tsx:84-106 | overdue and stale counts never exceed the number of open (non-terminal) prospects |
| `PipelineView.TallyZeroIff` | src/components/pipeline-view.tsx:75-113 | a counter is zero exactly when no prospect meets its condition |
| `PipelineView.WinRateNotApplicableIff` | src/components/pipeline-view.tsx:108-110 | the win rate is not applicable exactly when no prospect is won or lost |
| `PipelineView.DaysSince` | src/components/pipeline-view.tsx:226-228 | the whole days elapsed, rounded down, also for a timestamp in the future |
| `PipelineView.DaysBadgeOf` | src/components/pipeline-view.tsx:222-231 | no interaction gives the muted "Sem interação"; otherwise "<days>d atrás", amber exactly when more than 14 days have passed |
| `PipelineView.Localidade` | src/components/pipeline-view.tsx:233-235 | a place line exists exactly when the municipality is non-empty; it starts with it and ends with "/UF" exactly when the state is non-empty |
| `PipelineView.Info` | src/components/pipeline-view.tsx:237-239 | a non-zero bed count gives "<n> leitos"; otherwise the size when non-empty; otherwise nothing |
| `PipelineView.DisplayName` | src/components/pipeline-view.tsx:248 | the trade name, else the legal name, else "Sem nome"; never empty |
| `DashboardPage.Mask` | src/app/dashboard/page.tsx:11-14 | fourteen digits are written in the shape `##.###.###/####-##` |
| `DashboardPage.FormatCnpj` | src/app/dashboard/page.tsx:9-15 | a valid CNPJ is shown in the mask's shape; any other input is shown as its bare digits |
| `DashboardPage.MaskThenClean` | src/app/dashboard/page.tsx:9-15 | cleaning the mask gives back its fourteen digits |
| `DashboardPage.FormatThenClean` | src/app/dashboard/page.tsx:9-15 | formatting never changes the digits a CNPJ carries |
| `DashboardPage.FormatIdempotent` | src/app/dashboard/page.tsx:9-15 | formatting a formatted CNPJ changes nothing |
| `DashboardPage.FormattedShapeIffValid` | src/app/dashboard/page.tsx:9-15 | the formatted text has the mask's shape exactly when the CNPJ is valid |
| `DashboardPage.CountCaption` | src/app/dashboard/page.tsx:91-92 | the count, a space, then the singular noun for a count of one and the plural noun otherwise |
| `DashboardPage.CaptionNounIffOne` | src/app/dashboard/page.tsx:160-161 | "prospect" and "interação" are shown exactly for a count of one, "prospects" and "interações" for every other count |
| `DashboardPage.CaptionCountRoundTrip` | src/app/dashboard/page.tsx:91-92 | the number at the head of a caption reads back as the count |

## Left out

- Transport details are not modelled: URLs and query-string encoding, `fetch` options (cache revalidation, `User-Agent`), the 10-second `AbortController` timeout of the CNES searches and `console.warn` logging. A CNES timeout or network error is one more `Failed` attempt. A registry network error is a `Rejected` attempt carrying the error's message; the registry lookup has no timeout.
- The JSON decoding of responses is not modelled: a registry or CNES body is taken as already typed. A CNES body that does not parse is a `Failed` attempt; a registry body that does not parse makes the lookup reject with the parser's error message, which is a `Rejected` attempt carrying that message.
- CnesLocator.FirstItem: a string-valued `estabelecimentos` key would make the source return the string's first character; the model treats any non-array `estabelecimentos` as no result.
- CnesLocator.FirstItem: a `null` first element of a non-empty array is not modelled, because the model's records are never null. The source returns that `null` at once as "no record", so it also skips the trade-name search; both the result and the searches sent differ from the model's empty-answer case.
- CnesTransform.TransformCnesData: bed counts are integers; the source's `Number(...)` coercion of a string-valued count and the string concatenation `+` would give for two string parts are not modelled.
- CnesTransform.TransformCnesData: a code or type key holding a non-scalar value (object or array) is not modelled; codes and types are strings or integers.
- The registry's `capital_social` is a `real` copied unchanged; floating-point rounding is not modelled.
- The search context's `municipio` is passed to the locator, which never uses it; it is carried but has no effect, as in the source.
- The `try`/`catch` around the CNES step of `enrichProspect` is not modelled because the locator never throws.
- PipelineView.WinRateOf: the source renders the rate as a percentage with one decimal and a `%` sign (`toFixed`); the model keeps the two counts and leaves the decimal formatting out.
- Dates are integer milliseconds; parsing date strings, an unparsable date (`NaN`, which makes the source's comparisons false) and the time zone are not modelled. `Date.now()` is the parameter `now`.
- React rendering is not modelled: markup, colours of column headers and priority borders, the mobile layout (`matchMedia`), the expand/collapse arrows and the "Nenhum prospect" placeholder.
- The dashboard page's data loading (Supabase queries), the new-prospect modal and navigation are not modelled; they are I/O.
- The other source files (AI briefing and message generation, the API routes including the CNES refresh route, authentication) are not part of this model.
