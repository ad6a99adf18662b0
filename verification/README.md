# Teams reporter card assembly, in Dafny

A model of the core of a Playwright reporter that posts a test-run summary to a
Microsoft Teams (or Power Automate) incoming webhook as an Adaptive Card. The
model covers the part of `processResults` that decides whether a notification
is produced and, if so, assembles the card; the shared card template it starts
from; and the table-row builder `createTableRow` as its tests fix it.

Modules, one per concern:

- `Wrappers` (`wrappers.dfy`): `Option`, and JavaScript truthiness of an optional
  string (present and non-empty), which every `if (options.x)` guard relies on.
- `AdaptiveCard` (`adaptive_card.dfy`): the card tree as immutable datatypes, one
  constructor per node kind (text block, column set, table, container, table
  row and cell, mention entity, open-URL action, the card itself).
- `Constants` (`constants.dfy`): the template card `BaseAdaptiveCard`. Its
  `${...}` placeholders are literal text that nothing substitutes.
- `TableRows` (`table_rows.dfy`): `CreateTableRow` with an optional percentage
  cell, and the readers `CellTexts`, `RowLabel`, `RowValue`, `RowStyle` and
  `Lookup` that recover what a row or table says.
- `ProcessResults` (`process_results.dfy`): options, helper signatures, the
  ordered guards, the summary rows, the results container, the mention rule, the
  action buttons, the Power Automate version override, and `Process`, which
  returns either the reason nothing is sent or the card that would be sent.
- `SummaryProperties` (`summary_properties.dfy`): reading the summary table by
  label finds each count under its own label.

The suite is a type parameter `S`. The helpers whose bodies are not part of this
model (`getTotalStatus`, `validateWebhookUrl`, `getMentions`,
`getNotificationTitle`, `getNotificationColor`, `getNotificationBackground`) and
the suite's test count (`suite.allTests().length`) are fields of a `Helpers<S>`
value of total functions, so every property holds whatever they return (throwing
is not modelled; see "## Left out"). Link
URLs that the options may give as zero-argument suppliers are taken as the
strings they resolve to.

The template table `BaseTable` (src/constants) is not part of this model:
`Process` takes it as a parameter, appends the summary rows to its rows, and
keeps its other properties unchanged as uninterpreted key/value pairs.

Template immutability comes for free: every value is immutable, so assembling a
card cannot change the template, and `BuildCard` states that the template's six
body items, `$schema` and `msteams.width` reappear unchanged in every card.

Two arities of `createTableRow` appear. `processResults` calls it with two
positional values and the options object third
(src/processResults.ts:51-58). Its tests call it with three positional values
and the options fourth (src/utils/createTableRow.test.ts:8, 51). The model gives
`CreateTableRow` an optional percentage cell and has the summary rows pass no
percentage together with the options, which is how `processResults` reads.
This is a choice of binding, recorded under "## Left out". The tests only
check the style of the first cell, so the model puts the style there and no
contract speaks of the other cells' style.

Facts about the summary and version that the model keeps:

- Only the Flaky row is omitted when its count is zero
  (src/processResults.ts:53-55). The Passed, Failed and Skipped rows are always
  present.
- No percentage is rendered in any row.
- The "Total tests" row shows `allTests().length`, not a sum of the other rows
  (src/processResults.ts:58).
- The override sets version "1.4" for the `powerautomate` webhook type
  (src/processResults.ts:131-133).

## Model

| member | source | states |
|---|---|---|
| `ProcessResults.Process` | src/processResults.ts:14-58 | Guards in order, each with its own outcome and no card: a missing or empty URL, then a URL the validator rejects, then a missing suite, then a `shouldRun` veto (even when tests failed), then a run with no failures without `notifyOnSuccess`. A card is delivered exactly when every guard passes and the run failed or `notifyOnSuccess` is set. The delivered card is built from the suite's counts and test count. |
| `ProcessResults.BuildCard` | src/processResults.ts:35-133 | The card extends the template. Its body is the six template items, then the results container with the summary rows appended to the base table, then the mention block exactly when the mention rule holds. Mention entities are present under the same rule and only then. Actions are exactly the 0-2 wanted links, results link first, every one with a non-empty URL. Version is "1.4" exactly for Power Automate and the template's "1.6" otherwise. Schema and `msteams.width` are unchanged. |
| `ProcessResults.SummaryRows` | src/processResults.ts:50-58 | The table has 6 rows when the flaky count is non-zero and 5 otherwise. The rows are in a fixed order: header, Passed, optional Flaky, Failed, Skipped, Total tests. Each row has two cells and reports its count under its label, with its style (good, warning, attention, accent). A row with the Flaky label exists exactly when the flaky count is non-zero. The last row shows the suite's test count and is the only subtle, bolder row. |
| `SummaryProperties.SummaryLookup` | src/processResults.ts:51-58 | Looking up a label in the summary table finds the passed, failed and skipped counts and the suite's test count under their labels. It finds the flaky count exactly when that count is non-zero and nothing otherwise. The header reads "Total" under "Type". |
| `SummaryProperties.FoundUnderLabel` | src/processResults.ts:51-58 | Every summary row is what a lookup of its own label finds, because no earlier row carries the same label. |
| `SummaryProperties.LabelsDistinct` | src/processResults.ts:51-58 | No two summary rows share a label, and the Flaky label is absent when the flaky count is zero, so reading the table by label is unambiguous. |
| `ProcessResults.AddMention` | src/processResults.ts:86-106 | When the run failed, the mention message is non-empty and at least one user is mentioned, it appends a wrapping medium text block with the message and sets the entities from the mention list. Otherwise the card is unchanged. Actions, schema, version and width are never touched. |
| `ProcessResults.MentionEntities` | src/processResults.ts:97-104 | One entity per mentioned user, in the same order, each built by `EntityFor`. |
| `ProcessResults.EntityFor` | src/processResults.ts:97-104 | The entity text is the user's email wrapped in `<at>`...`</at>`, and the email can be read back from it. The mentioned id is the email and the mentioned name is the name. |
| `ProcessResults.MentionsRoundTrip` | src/processResults.ts:97-104 | Reading the users back from the built entities (id as email, name as name) gives exactly the mention list, so no user is dropped, added or reordered. |
| `ProcessResults.AddActions` | src/processResults.ts:108-129 | Existing actions are kept. The results link is added exactly when its URL is non-empty, with the results text as its title. The failure link is added exactly when the run failed and both its text and a non-empty URL are given. When both are added, the results link comes first. |
| `ProcessResults.WithVersion` | src/processResults.ts:131-133 | For Power Automate the version becomes "1.4". For any other kind the version is left alone. Nothing else changes. |
| `Constants.BaseAdaptiveCard` | src/constants/baseAdaptiveCard.ts:3-108 | The template has six body items and none of them is a container or a table. Its `msteams` holds only width "Full" and no entities. Its action list is empty. Its schema is the adaptive-card schema URL and its version is "1.6". |
| `TableRows.CreateTableRow` | src/utils/createTableRow.test.ts:4-73 | Three cells when a percentage is given, two otherwise. The cell texts read back as the arguments in order. Every cell holds exactly one wrapping text block carrying the requested `isSubtle` and `weight`. The `style` lands on the first cell. |
| `TableRows.DefaultRowShape` | src/utils/createTableRow.test.ts:4-43 | With default options, a three-argument row is exactly three table cells. Each cell is a single wrapping text block with the argument's text and no other property. |

## Left out

- The POST to the webhook, the response-status handling and the check for a "1" acknowledgement (src/processResults.ts:146-170): network I/O.
- Serialising the card and its message envelope to JSON text (src/processResults.ts:135-144): string serialisation. `Outcome.Deliver` carries the card that would be sent.
- Console logging, and the `quiet` and `debug` flags, which only affect logging.
- Walking the Playwright suite and `allTests()`: an external type. The counts and the test count come from `Helpers`.
- The bodies of `getTotalStatus`, `validateWebhookUrl`, `getMentions` and the three `getNotification*` helpers: they are not part of this model and stay abstract, so the model assumes nothing about them.
- Evaluating link-URL suppliers: a supplier is taken as its resolved optional string. A supplier function is always truthy, so the source's outer `if` on it adds nothing beyond the check of the resolved string.
- `BaseTable` (src/constants) is not part of this model. Its contents are a parameter.
- The percentage cell's content and any percentage arithmetic: `processResults` renders no percentage.
- ProcessResults.SummaryRows: assumes `processResults` binds `{ style }` and `{ isSubtle, weight }` (src/processResults.ts:52-58) as the row builder's options, giving two-cell rows with the style on the first cell. Under the tested four-parameter form (src/utils/createTableRow.test.ts:51) each object would instead be taken as the percentage, so every count row would get a third cell holding that object and no style or subtle/bolder setting; the model does not state that reading.
- Exceptions from helpers and option callbacks: if `validateWebhookUrl`, `shouldRun`, `getMentions` or a link-URL supplier throws, or the mention data has no `mentions` list so that `.length` throws (src/processResults.ts:23, 33, 88-89, 110, 121), `processResults` rejects and sends nothing. The model treats all of these as total functions, and `Process` always returns an `Outcome`.
- TableRows.CreateTableRow: states nothing about the style of cells after the first, because the row builder's tests fix only the first cell's style.
