# Marketing dashboard core, modelled in Dafny

This project models the decision and aggregation logic of a marketing-analytics dashboard
and proves properties of it. The web, database, authentication and language-model plumbing
around that logic is not modelled. The modelled parts are:

- the **budget-allocation projector** of the simulation endpoint. It makes one pass over the
  requested `{channel, amount}` allocations and looks up a fixed per-channel efficiency
  (Social 3.5, Search 4.2, Email 5.0, Display 2.1, otherwise 3.0). It emits one projection
  per allocation and keeps unrounded revenue and spend totals.
- the **campaign-health classifier**. Per campaign it sums spend and revenue over all metric
  rows and computes a guarded ROI. The ROI maps to critical (below 100), attention (below
  200) or healthy.
- the **dashboard summary** loop. It folds the joined metric rows into two totals plus a
  channel map, lists the map in insertion order, and the dashboard route adds the same
  guarded ROI.
- **`buildUrl`**. It fills `:key` placeholders in a route template, one parameter entry at
  a time, using JavaScript's `String.prototype.replace`.
- the **client list rules**: the simulator's total budget and slider update, the report
  page's focus-area toggle, and the campaigns page's health lookup and status filter.

Amounts, revenues and ROIs are `real`s. Each file holds one module:

| file | module | source |
|---|---|---|
| wrappers.dfy | `Wrappers` | an Option type standing for `undefined`, `null` or NaN |
| seqs.dfy | `Seqs` | `Array.prototype.filter`, subsequences, distinctness |
| schema.dfy | `Schema` | shared/schema.ts record shapes; the sum of allocation amounts |
| roi.dfy | `Roi` | the guarded ROI formula of server/routes.ts |
| simulation.dfy | `Simulation` | server/routes.ts simulation handler body |
| health.dfy | `Health` | server/routes.ts campaign-health loop and classifier |
| dashboard.dfy | `Dashboard` | server/storage.ts `getDashboardSummary` loop; the dashboard route |
| urlbuilder.dfy | `UrlBuilder` | shared/routes.ts `buildUrl` |
| simulatorpage.dfy | `SimulatorPage` | client/src/pages/Simulator.tsx |
| reportspage.dfy | `ReportsPage` | client/src/pages/Reports.tsx |
| campaignspage.dfy | `CampaignsPage` | client/src/pages/Campaigns.tsx |

Loops in the source are methods with loop invariants: the simulation loop, the health loop,
the dashboard loop and the `forEach` of `buildUrl`. Each method's `ensures` ties its
result to a specification function. The lemmas prove properties of those functions.
Code that expresses its result with `map`, `filter`, `find` or `reduce` is modelled as
functions.

Two choices follow the code as written:

- A zero-amount channel gets a per-channel ROI of 0/0, which is not a number (see Findings).
  The slider's minimum is 0 (client/src/pages/Simulator.tsx:65), and the client parses the
  response with `projectedROI: z.number()` (shared/routes.ts:88,
  client/src/hooks/use-dashboard.ts:76). `Simulate` follows the code; `ProjectGuarded` gives
  such a channel the numeric ROI 0.
- The request schema (shared/schema.ts:100-106) checks neither that amounts are
  non-negative nor that the allocation list is non-empty, so the model accepts any real
  amount and any list length.

## Model

| member | source | states |
|---|---|---|
| `Simulation.Efficiency` | server/routes.ts:115-123 | the efficiency is always positive; it is the table entry for the four listed channels (exact, case-sensitive match) and 3.0 for every other name |
| `Simulation.Project` | server/routes.ts:125-140 | channel and allocation are copied; revenue is amount × efficiency; the ROI is a number exactly when the amount is non-zero, and it then equals (efficiency − 1) × 100 |
| `Simulation.ProjectedRoiIndependentOfAmount` | server/routes.ts:126-129 | two non-zero amounts on the same channel give the same per-channel ROI |
| `Simulation.Simulate` | server/routes.ts:110-152 | one result per allocation, in input order, each the projection of that allocation; total revenue is the sum of the unrounded revenues; total ROI is the guarded ROI of total revenue against the sum of the amounts |
| `Simulation.TotalsStep` | server/routes.ts:142-143 | one more allocation adds its projected revenue and its amount to the running totals |
| `Simulation.TotalProjectedRevenueConcat` | server/routes.ts:142 | the revenue total is additive over a split of the allocation list |
| `Simulation.TotalRevenueCoversSpend` | server/routes.ts:115-152 | with no negative amount, projected revenue is at least the spend and the total ROI is not negative |
| `Simulation.ZeroAmountBreaksResponse` | server/routes.ts:126-137 | as written, an allocation of amount 0 gets a projection whose ROI is not a number |
| `Simulation.ProjectGuarded` | server/routes.ts:125-140 | the corrected projection always has a numeric ROI: 0 for amount 0, and otherwise the same as `Project` |
| `Roi.GuardedRoi` | server/routes.ts:146-152 | the ROI is 0 when spend is not positive; for positive spend it is non-negative exactly when revenue covers spend, and revenue = spend × (1 + roi/100) |
| `Roi.RoiBelowIff` | server/routes.ts:80-87 | for positive spend, ROI < t exactly when revenue < spend × (1 + t/100) |
| `Health.Classify` | server/routes.ts:85-87 | critical iff roi < 100; attention iff 100 ≤ roi < 200; healthy iff roi ≥ 200 |
| `Health.ClassifyMonotone` | server/routes.ts:85-87 | a higher ROI never gives a worse status |
| `Health.ClassifyExamples` | server/routes.ts:80-87 | ROI 95 is critical, ROI 110 needs attention, zero spend is critical; 100 is attention and 200 is healthy |
| `Health.HealthOf` | server/routes.ts:70-98 | id and name are copied; the metrics are the spend and revenue sums over the campaign's rows; the ROI is their guarded ROI and the status is its classification |
| `Health.CampaignHealthList` | server/routes.ts:65-101 | one entry per campaign, in campaign order, each `HealthOf` that campaign and its metric rows |
| `Health.StatusBySums` | server/routes.ts:71-87 | with positive spend: critical iff revenue < 2 × spend, attention iff 2 × spend ≤ revenue < 3 × spend, healthy iff revenue ≥ 3 × spend; without positive spend: always critical |
| `Health.TotalsConcat` | server/routes.ts:71-78 | the spend and revenue sums are additive over a split of the rows |
| `Dashboard.GetDashboardSummary` | server/storage.ts:174-205 | the totals are the revenue and spend sums over all rows; one entry per channel in first-seen order, carrying the revenue and spend sums over that channel's rows only; no rows give zero totals and an empty list |
| `Dashboard.Entries` | server/storage.ts:198-204 | one summary per key of the map, in the given insertion order, with that key's revenue and spend |
| `Dashboard.ChannelTotalAbsent` | server/storage.ts:186-192 | a channel occurring in no row has zero totals |
| `Dashboard.ChannelsExact` | server/storage.ts:186-188 | a channel is listed exactly when some row has it |
| `Dashboard.ChannelsDistinct` | server/storage.ts:176-188 | no channel is listed twice |
| `Dashboard.FirstIndex` | server/storage.ts:178-188 | gives the index of a channel's first row: that row has the channel and no earlier row does |
| `Dashboard.ChannelsInFirstSeenOrder` | server/storage.ts:186-204 | channels are listed in increasing order of their first rows |
| `Dashboard.SumOverChannelsAddRow` | server/storage.ts:190-192 | over distinct channels, one more row adds its value only to the channel it belongs to |
| `Dashboard.ChannelTotalsPartition` | server/storage.ts:183-192 | the per-channel revenues add up to the total revenue, and the per-channel spends to the total spend |
| `Dashboard.Respond` | server/routes.ts:28-48 | the response copies the totals and channel list, adds their guarded ROI, a conversion rate of 3.2 and a budget utilisation of 78 |
| `UrlBuilder.IndexFrom` | shared/routes.ts:139 | the result is the first occurrence at or after the start index, or none when the pattern does not occur there |
| `UrlBuilder.IndexOf` | shared/routes.ts:139 | the result is the first occurrence of the plain substring, or none exactly when it occurs nowhere |
| `UrlBuilder.IndexOfFirst` | shared/routes.ts:139-140 | an occurrence with none before it is the one found |
| `UrlBuilder.ExpandMatch` | shared/routes.ts:140 | the replacement `$&` expands to the matched text |
| `UrlBuilder.SubstitutionLiteral` | shared/routes.ts:140 | a replacement in which no `$` is followed by `$`, `&`, `` ` `` or `'` (for example one without `$`, or `a$b`, or `$1`) is inserted unchanged |
| `UrlBuilder.ReplaceFirst` | shared/routes.ts:140 | without an occurrence of the pattern the string is unchanged |
| `UrlBuilder.Step` | shared/routes.ts:139-141 | a parameter whose `:key` does not occur leaves the url unchanged |
| `UrlBuilder.StepReplacesFirst` | shared/routes.ts:139-141 | for a value without an expanding `$` pattern, only the first occurrence of `:key` is replaced by the value, and the text around it is kept |
| `UrlBuilder.BuildUrl` | shared/routes.ts:135-145 | with no params the path comes back unchanged; otherwise the result is the left fold of the steps over the entries |
| `UrlBuilder.FillTemplateNoEntries` | shared/routes.ts:136-137 | no entries leave the path unchanged |
| `UrlBuilder.FillTemplateConcat` | shared/routes.ts:138-142 | later entries act on the text that earlier replacements produced |
| `UrlBuilder.CampaignRouteExample` | shared/routes.ts:135-145 | `/api/campaigns/:id` with id 5 gives `/api/campaigns/5` |
| `UrlBuilder.PrefixKeyExample` | shared/routes.ts:139-140 | plain substring matching: key `id` also matches inside `:idx` |
| `UrlBuilder.StepAfterPlainPrefix` | shared/routes.ts:139-141 | in a template whose text before `:key` has no `:`, that occurrence is the one found, and the step puts the expanded value in its place with the text on both sides kept |
| `UrlBuilder.DollarValueExample` | shared/routes.ts:140 | as written, the value `$&` for `:key` at the end of a template (such as `/api/campaigns/:id`) reinserts `:key` |
| `UrlBuilder.StepLiteral` | shared/routes.ts:139-141 | the corrected step puts the value itself in place of the first `:key`; for values without an expanding `$` pattern it agrees with the step as written |
| `UrlBuilder.FillTemplateLiteral` | shared/routes.ts:138-142 | the corrected fill agrees with the fill as written whenever no value has an expanding `$` pattern |
| `UrlBuilder.DollarValueLiteralExample` | shared/routes.ts:140 | with the corrected step, the value `$&` for `:key` at the end of a template is inserted literally |
| `Schema.TotalAmountConcat` | client/src/pages/Simulator.tsx:18 | the total budget of a concatenation is the sum of the totals |
| `Seqs.Filter` | client/src/pages/Reports.tsx:12 | the result is no longer than the input; it holds every element that satisfies the predicate as often as the input does, and no other element |
| `Seqs.FilterIsSubsequence` | client/src/pages/Reports.tsx:12 | filtering keeps the relative order of the kept elements |
| `Seqs.FilterKeepsAll` | client/src/pages/Campaigns.tsx:19 | filtering a list whose every element passes returns it unchanged |
| `Seqs.FilterConcat` | client/src/pages/Campaigns.tsx:18-21 | filtering distributes over concatenation |
| `Seqs.FilterDistinct` | client/src/pages/Reports.tsx:12 | filtering never introduces a duplicate |
| `SimulatorPage.ChannelNames` | client/src/pages/Simulator.tsx:7-12 | the names are the allocations' channels, index by index |
| `SimulatorPage.SliderChange` | client/src/pages/Simulator.tsx:20-24 | the length and every channel name are kept; every allocation of the moved channel gets the new value; all others are unchanged |
| `SimulatorPage.SliderChangeKeepsChannels` | client/src/pages/Simulator.tsx:21-23 | the channel names and their order are kept |
| `SimulatorPage.SliderChangeUnlisted` | client/src/pages/Simulator.tsx:20-24 | moving the slider of a channel that is not listed leaves the allocation list as it was |
| `SimulatorPage.SliderChangeTotal` | client/src/pages/Simulator.tsx:18-23 | with distinct channels, the total budget changes by new value − old amount of the moved channel at its index |
| `SimulatorPage.SliderChangeStaysOnGrid` | client/src/pages/Simulator.tsx:63-69 | if every amount and the new value are multiples of 500 in [0, 20000], all amounts still are |
| `SimulatorPage.InitialAllocationFacts` | client/src/pages/Simulator.tsx:7-12 | four distinct channels, amounts on the slider grid, total 19000 |
| `SimulatorPage.InitialAllocationProjection` | server/routes.ts:114-152 | the initial allocation projects revenues 17500, 33600, 10000 and 8400, total revenue 69500, and total ROI 50500/19000 × 100 |
| `SimulatorPage.UnknownChannelProjection` | server/routes.ts:122-129 | an unlisted channel with 1000 projects revenue 3000 and ROI 200 |
| `ReportsPage.ToggleFocus` | client/src/pages/Reports.tsx:10-14 | an absent area is appended at the end; a present area is removed everywhere; every other element stays as often as before, in its relative order |
| `ReportsPage.ToggleTwice` | client/src/pages/Reports.tsx:11-13 | toggling twice, starting from a list without the area, restores the list |
| `ReportsPage.ToggleKeepsDistinct` | client/src/pages/Reports.tsx:12 | from a list without duplicates, toggling never creates one |
| `CampaignsPage.FindHealth` | client/src/pages/Campaigns.tsx:15 | the result is the first entry with the id, or none exactly when no entry has it |
| `CampaignsPage.GetHealthStatus` | client/src/pages/Campaigns.tsx:14-16 | the status of the first entry with the id; healthy when the health list is absent or has no such entry |
| `CampaignsPage.FilteredCampaigns` | client/src/pages/Campaigns.tsx:18-21 | absent stays absent; `all` keeps every campaign in order; any other filter keeps exactly the campaigns with that status, in their relative order |
| `CampaignsPage.FilteredCampaignsConcat` | client/src/pages/Campaigns.tsx:18-21 | the filtered campaigns of a concatenation are those of each part, one after the other |

## Findings

| source | as written | input that shows it | evidently intended | confidence | as-written member | corrected member |
|---|---|---|---|---|---|---|
| server/routes.ts:126-129 | per-channel ROI divides by the amount with no guard | an allocation with amount 0 (the slider's minimum). The ROI is 0/0 = NaN and is sent as `null`. The client parses the response (client/src/hooks/use-dashboard.ts:76) with a schema that wants a number there (shared/routes.ts:88), so the whole simulation response is rejected | a numeric ROI for a zero amount (0) | medium, not executed | `Simulation.ZeroAmountBreaksResponse` | `Simulation.ProjectGuarded` |
| shared/routes.ts:140 | the value is passed as the replacement string of `String.prototype.replace`, which expands `$` patterns | `buildUrl("/api/campaigns/:id", { id: "$&" })` gives `/api/campaigns/:id` | the value inserted literally, giving `/api/campaigns/$&` | low, not executed | `UrlBuilder.DollarValueExample` | `UrlBuilder.FillTemplateLiteral` |

`Simulation.Simulate` and `UrlBuilder.BuildUrl` model the code as written. The corrected
members show the intended behaviour. `ProjectGuarded` is proved to agree with `Project` on
every non-zero amount. `StepLiteral` and `FillTemplateLiteral` are proved to agree with
`Step` and `FillTemplate` whenever no value has a `$` followed by `$`, `&`, `` ` `` or `'`,
which are exactly the values `replace` inserts unchanged.

## Left out

- HTTP routing, request parsing and status handling are not modelled: the zod validation, the 400 and 500 responses, and the 404 of the single-campaign route. The handlers are functions and methods of already-parsed input.
- The queries that feed the loops are inputs. `getDashboardSummary`'s join is its `rows` argument, and the health loop's per-campaign query is the `metricsOf` parameter.
- Rounding to two decimals (`toFixed(2)` and `parseFloat`) is not modelled, and the model emits unrounded values. As a result it does not capture that the emitted, rounded campaign ROI can read 100.00 while the status, computed from the unrounded ROI, is critical.
- Parsing of decimal strings with `Number()` and IEEE-754 double arithmetic are not modelled: all values are exact reals. Apart from the zero-amount ROI, NaN propagation is not modelled either.
- Simulation.Efficiency: the object-literal lookup also finds inherited `Object.prototype` names, such as a channel called `constructor`, and then computes a non-number. The model gives every name outside the four-entry table the default 3.0.
- UrlBuilder.BuildUrl: the entries arrive in the order `Object.entries` yields them, which puts integer-like keys first. Values are strings already, so the `String(value)` formatting of numbers is not modelled.
- The request's `totalBudget` field is accepted but never read by the handler, so it has nothing to model.
- The OpenAI report endpoint, database seeding, the table definitions, JWT and bcrypt authentication, React rendering and charts, the React Query fetch hooks, and async sequencing are not modelled: they are I/O, foreign calls or presentation.
- React state updates (`setAllocations`, `setFocusAreas`) are functions from the previous list to the next one.
