# Finora dashboard core, modelled in Dafny

This project models the client-side logic of the Finora operations
dashboard:

- the `mulberry32` seeded generator (`Prng`) and the 24-bar throughput chart derived from it (`Chart`);
- the transaction search `filterRows` (`RowFilter`), built on models of `trim`, ASCII `toLowerCase` and `includes` (`Text`) and of `Array.prototype.filter` (`Seqs`);
- the search's self-test fixtures of both page revisions (`RowFixtures`);
- the URL query store `readParam` / `writeParam` (`UrlParams`);
- the theme rules: URL, then saved preference, then system setting; the toggle; the system-change handler (`Theme`);
- the mirroring of the tab, range and search selection into the URL (`Dashboard`);
- the alert centre's filter, badge counts and labels (`Alerts`).

Browser state is explicit data:

- the page address's query is a `map<string, string>`;
- `localStorage`'s `finora.theme` entry is an `Option<string>`;
- the `prefers-color-scheme: dark` media query is a boolean parameter;
- the 200 ms search debounce is a `pending` flag with a `Settle` step for the timer firing.

Both revisions of `filterRows`, the typed one in `utils/index.ts` and the
untyped one in `app/page.tsx`, have the same body. One model serves both.
The `Channel` type covers both revisions' channel names. Likewise,
`readParam` and `writeParam` in `app/page.tsx:67-76` have the same bodies
as those in `utils/index.ts:68-78`, which the table cites.

The self-test in `utils/index.ts:50` expects the query "TOSS BANK" to find
two rows. The code finds none, because the row text holds "tossbank" with no space.
`RowFixtures.BankTossBank` proves the code's answer.

The chart lemmas hold for every seed. The component seeds with 777
(`Chart.ChartSeed`), so they cover it; `Chart.ChartAtSeed` states the headline facts at that seed.

## Model

| member | source | states |
|---|---|---|
| Prng.SeedState | dashboard/src/utils/index.ts:7 | `seed >>> 0` as a 32-bit state. No contract of its own: `Prng.SeedsModulo` pins down that only the seed modulo 2^32 matters |
| Prng.Mix | dashboard/src/utils/index.ts:10-12 | The three mixing rounds, with `Math.imul` as 32-bit multiplication and `>>>` as a logical shift. No contract of its own: `Prng.NumeratorAt` and `Prng.StreamAt` pin down that each draw is the mix of the advanced state |
| Prng.Unit | dashboard/src/utils/index.ts:12 | A numerator divided by 2^32 is a real in [0, 1) and scales back exactly to the numerator |
| Prng.Numerators | dashboard/src/utils/index.ts:8-13 | k calls of the returned closure yield exactly k numerators |
| Prng.NumeratorAt | dashboard/src/utils/index.ts:9-12 | Draw i mixes the state after i + 1 additions of 0x6D2B79F5 to the start state |
| Prng.Stream | dashboard/src/utils/index.ts:6-14 | k draws of `mulberry32(seed)` yield exactly k numerators; `Prng.StreamAt` pins down each of them |
| Prng.StreamAt | dashboard/src/utils/index.ts:6-14 | Draw i of `mulberry32(seed)` is the mix of the state after i + 1 additions of 0x6D2B79F5 to `seed >>> 0`, each addition modulo 2^32 |
| Prng.StreamPrefix | dashboard/src/utils/index.ts:6-14 | The generator is deterministic: a shorter run from the same seed is a prefix of a longer one |
| Prng.SeedsModulo | dashboard/src/utils/index.ts:7 | Seeds equal modulo 2^32 (as `>>> 0` sees them) give identical streams |
| Prng.NumeratorsSplit | dashboard/src/utils/index.ts:8-13 | Drawing j then k values continues from the state after j draws, same as drawing j + k at once |
| Prng.AdvanceShift | dashboard/src/utils/index.ts:9 | Starting one increment later is the same as one more increment |
| Prng.AdvanceAdd | dashboard/src/utils/index.ts:9 | m increments followed by n increments are m + n increments |
| Chart.TpsValue | dashboard/src/components/ui/ChartPlaceholder.tsx:35 | A bar's TPS value lies in 300..899 |
| Chart.TpsValueIsFloor | dashboard/src/components/ui/ChartPlaceholder.tsx:35 | The integer value is exactly `Math.floor(300 + rng() * 600)` over the reals |
| Chart.MakeBar | dashboard/src/components/ui/ChartPlaceholder.tsx:33-46 | A bar's value lies in 300..899, its height numerator is its second draw, its gradient is one of the six, and it is the latest exactly when its time offset is 0 |
| Chart.Bars | dashboard/src/components/ui/ChartPlaceholder.tsx:32-48 | One bar per draw pair: bar k takes draws 2k (value) and 2k + 1 (height), in map order |
| Chart.BarsStep | dashboard/src/components/ui/ChartPlaceholder.tsx:32-48 | Putting bar i in front of the bars from i + 1 on keeps every bar on its own draw pair |
| Chart.ChartData | dashboard/src/components/ui/ChartPlaceholder.tsx:20-49 | Exactly 24 bars, bar i built from draws 2i and 2i + 1 of the seeded stream |
| Chart.ChartBars | dashboard/src/components/ui/ChartPlaceholder.tsx:33-46 | Every bar has value in 300..899, colour `i % 6` of the six gradients, offset (23 - i) * 5 minutes; only bar 23 is latest and only it has offset 0 |
| Chart.ChartDraws | dashboard/src/components/ui/ChartPlaceholder.tsx:35-37 | The value of bar i comes from draw 2i and its height numerator from draw 2i + 1 |
| Chart.CurrentValue | dashboard/src/components/ui/ChartPlaceholder.tsx:51 | The headline is the last bar's value, or 847 when there is no last bar or its value is 0 |
| Chart.CurrentValueIsLatest | dashboard/src/components/ui/ChartPlaceholder.tsx:51 | On the chart the headline is always the latest bar's value, which lies in 300..899, so the 847 fallback is never taken |
| Chart.ChartAtSeed | dashboard/src/components/ui/ChartPlaceholder.tsx:20-51 | The rendered chart, seeded with 777, has 24 bars and a headline equal to the latest bar's value, in 300..899 |
| UrlParams.ReadParam | dashboard/src/utils/index.ts:68-71 | The stored value when the name is present, the fallback otherwise |
| UrlParams.WriteParam | dashboard/src/utils/index.ts:73-78 | The empty value deletes the name; any other value sets it; every other name keeps its value |
| UrlParams.ReadAfterWrite | dashboard/src/utils/index.ts:68-78 | Reading back a write gives the written value, or the fallback after a delete |
| UrlParams.ReadOtherAfterWrite | dashboard/src/utils/index.ts:68-78 | A write to one name is invisible to reads of any other name |
| UrlParams.WriteWrite | dashboard/src/utils/index.ts:73-78 | Of two writes to one name, the last wins |
| Seqs.SubsequenceReflexive | dashboard/src/utils/index.ts:20 | The rows returned unchanged for an empty query are a subsequence of themselves |
| Seqs.Filter | dashboard/src/utils/index.ts:22 | The result is no longer than the input, and every kept element satisfies the predicate |
| Seqs.FilterMultiset | dashboard/src/utils/index.ts:22 | Every element satisfying the predicate is kept as often as it occurs; every other element is dropped |
| Seqs.FilterSubsequence | dashboard/src/utils/index.ts:22 | The kept elements keep their original order |
| Seqs.FilterCons | dashboard/src/utils/index.ts:22 | The first element is decided, then the rest is filtered |
| Seqs.FilterMembership | dashboard/src/utils/index.ts:22 | An input element is in the result if and only if it satisfies the predicate |
| Seqs.FilterKeepsAll | dashboard/src/utils/index.ts:22 | When every element satisfies the predicate, the input comes back unchanged |
| Seqs.FilterIdempotent | dashboard/src/utils/index.ts:22 | Filtering twice with one predicate is filtering once |
| Seqs.FilterCongruent | dashboard/src/utils/index.ts:22 | Predicates that agree on every element select the same elements |
| Seqs.FilterAppend | dashboard/src/utils/index.ts:22 | Filtering a concatenation is concatenating the filtered parts |
| Seqs.FilterSingle | dashboard/src/utils/index.ts:22 | One element is kept exactly when it satisfies the predicate |
| Seqs.FilterFour | dashboard/src/utils/index.ts:22 | On four elements the result is the per-element decisions, in order |
| Seqs.FilterFive | dashboard/src/components/Alerts.tsx:68 | On five elements the result is the per-element decisions, in order |
| Text.TrimStartSpec | dashboard/src/utils/index.ts:21 | Dropping leading whitespace leaves a suffix that does not start with whitespace, after a whitespace-only prefix |
| Text.TrimEndSpec | dashboard/src/utils/index.ts:21 | Dropping trailing whitespace leaves a prefix that does not end with whitespace, before a whitespace-only suffix |
| Text.Trim | dashboard/src/utils/index.ts:21 | `trim` gives an infix with no whitespace at either end and only whitespace around it; it is empty exactly for all-whitespace input |
| Text.TrimParts | dashboard/src/utils/index.ts:21 | Trimming the start, then the end, leaves a tight infix surrounded by whitespace |
| Text.TrimUnique | dashboard/src/utils/index.ts:21 | Any tight infix with only whitespace around it is the trimmed form |
| Text.TrimIgnoresPadding | dashboard/src/utils/index.ts:21 | Whitespace added around a string does not change its trimmed form |
| Text.PaddedTrimmedAt | dashboard/src/utils/index.ts:21 | Padding with whitespace moves the trimmed infix without changing it |
| Text.TrimIdempotent | dashboard/src/utils/index.ts:21 | Trimming twice is trimming once |
| Text.Lower | dashboard/src/utils/index.ts:25 | ASCII `toLowerCase` keeps the length and maps each character on its own |
| Text.LowerCharSpec | dashboard/src/utils/index.ts:25 | No ASCII capital remains; exactly the capitals change, each by +32 |
| Text.LowerIdempotent | dashboard/src/utils/index.ts:25 | Lower-casing twice is lower-casing once |
| Text.LowerAppend | dashboard/src/utils/index.ts:24-25 | Lower-casing the joined text is joining the lower-cased parts |
| Text.LowerKeepsWhitespace | dashboard/src/utils/index.ts:21 | Lower-casing neither creates nor removes whitespace |
| Text.TrimLowerCommute | dashboard/src/utils/index.ts:21 | Trimming and lower-casing the query can be done in either order |
| Text.TrimStartLower | dashboard/src/utils/index.ts:21 | Dropping leading whitespace commutes with lower-casing |
| Text.TrimEndLower | dashboard/src/utils/index.ts:21 | Dropping trailing whitespace commutes with lower-casing |
| Text.MatchFromSpec | dashboard/src/utils/index.ts:26 | The position-by-position comparison agrees with slice equality |
| Text.IncludesFromSpec | dashboard/src/utils/index.ts:26 | Searching from position k finds the needle if and only if it occurs at some position at or after k |
| Text.IncludesSpec | dashboard/src/utils/index.ts:26 | `includes` is true if and only if the needle is an infix |
| Text.IncludesEmpty | dashboard/src/utils/index.ts:26 | The empty needle is found in every string |
| Text.IncludesAt | dashboard/src/utils/index.ts:26 | A matching position proves `includes` |
| Text.MissingChar | dashboard/src/utils/index.ts:26 | A needle character absent from the text rules out a match |
| Text.MissingEarly | dashboard/src/utils/index.ts:26 | A text shorter than the needle, or one lacking a needle character at every position that character could take, rules out a match |
| Text.AbsentInOrder | dashboard/src/utils/index.ts:26 | No match when an earlier needle character is missing before a split and a later one after it |
| Text.SoleOccurrence | dashboard/src/utils/index.ts:26 | When a needle character occurs once and the needle does not fit there, there is no match |
| Text.IncludesInfix | dashboard/src/utils/index.ts:26 | A string is found where it sits inside a concatenation |
| Text.NoSpaceSplit | dashboard/src/utils/index.ts:24-26 | A needle without spaces found in two space-joined parts lies wholly in one part |
| Text.OccursInPrefix | dashboard/src/utils/index.ts:26 | An occurrence ending inside the first part is an occurrence in that part |
| Text.OccursInSuffix | dashboard/src/utils/index.ts:26 | An occurrence starting after the first part is an occurrence in the second |
| Text.SpaceInside | dashboard/src/utils/index.ts:24-26 | An occurrence that covers the joining space contains a space |
| Text.InOrderAcrossSpace | dashboard/src/utils/index.ts:24-26 | A non-space needle character missing before the space, and a later one missing after it, rule out a match |
| RowFilter.Haystack | dashboard/src/utils/index.ts:23-25 | The row text is the five fields joined by four single spaces, so its length is theirs plus 4; `RowFilter.HaystackFields` pins down its characters |
| RowFilter.HaystackFields | dashboard/src/utils/index.ts:23-25 | The row text is the lower-cased fields, space-separated |
| RowFilter.SpacedHasFields | dashboard/src/utils/index.ts:23-26 | Every field is found in the joined row text |
| RowFilter.SpacedNoSpaceNeedle | dashboard/src/utils/index.ts:23-26 | A needle without spaces that no single field contains is not in the row text |
| RowFilter.SpacedInOrder | dashboard/src/utils/index.ts:23-26 | A needle character absent from the first four fields, followed by one absent from the last, rules the needle out |
| RowFilter.Needle | dashboard/src/utils/index.ts:21 | The normalised query is empty exactly when the query is all whitespace, and it is no longer than the query; `RowFilter.TightNeedle` and `RowFilter.LowerNeedle` pin it down further |
| RowFilter.Matches | dashboard/src/utils/index.ts:22-26 | The row predicate: the row text contains the normalised query. No contract of its own: `RowFilter.KeptIff` states that it decides membership in the result |
| RowFilter.TightNeedle | dashboard/src/utils/index.ts:21 | A query without outer whitespace is only lower-cased |
| RowFilter.FilterFourRows | dashboard/src/utils/index.ts:19-28 | On four rows the result is the per-row decisions, in order |
| RowFilter.FilterRows | dashboard/src/utils/index.ts:19-28 | An empty query returns the rows; otherwise exactly the matching rows, each as often as in the input, in input order |
| RowFilter.EmptyQueryMatchesAll | dashboard/src/utils/index.ts:20-26 | The normalised empty query is contained in every row's text |
| RowFilter.KeptIff | dashboard/src/utils/index.ts:19-28 | An input row is returned if and only if its lower-cased joined text contains the trimmed, lower-cased query |
| RowFilter.FilterRowsIsFilter | dashboard/src/utils/index.ts:19-28 | The early return for the empty query agrees with filtering by the row predicate |
| RowFilter.WhitespaceQueryKeepsAll | dashboard/src/utils/index.ts:20-21 | A whitespace-only query returns every row: it trims to the empty needle |
| RowFilter.FilterRowsIdempotent | dashboard/src/utils/index.ts:19-28 | Searching the result again with the same query changes nothing |
| RowFilter.CaseInsensitive | dashboard/src/utils/index.ts:21 | Queries differing only in ASCII letter case find the same rows |
| RowFilter.LowerNeedle | dashboard/src/utils/index.ts:21 | Lower-casing the query first does not change the normalised needle |
| RowFilter.SameNeedleSameRows | dashboard/src/utils/index.ts:21-27 | Queries with the same normalised needle find the same rows |
| RowFilter.PaddingInsensitive | dashboard/src/utils/index.ts:21 | Whitespace around the query is ignored |
| RowFixtures.NeedleError | dashboard/src/utils/index.ts:42 | "error" normalises to itself |
| RowFixtures.NeedleKakaoBank | dashboard/src/utils/index.ts:43 | "KakaoBank" normalises to "kakaobank" |
| RowFixtures.NeedleMissing | dashboard/src/utils/index.ts:44 | "does-not-exist" normalises to itself |
| RowFixtures.NeedleAmount | dashboard/src/utils/index.ts:45 | "3000" normalises to itself |
| RowFixtures.NeedleId | dashboard/src/utils/index.ts:49 | "tx-3" normalises to itself |
| RowFixtures.NeedleTossBank | dashboard/src/utils/index.ts:50 | "TOSS BANK" normalises to "toss bank", with its space |
| RowFixtures.NeedleOpenApi | dashboard/src/app/page.tsx:42 | "OpenAPI" normalises to "openapi" |
| RowFixtures.NeedleInternal | dashboard/src/app/page.tsx:49 | "INTERNAL" normalises to "internal" |
| RowFixtures.BankText1 | dashboard/src/utils/index.ts:34 | Row TX-1's search text, field by field |
| RowFixtures.BankText2 | dashboard/src/utils/index.ts:35 | Row TX-2's search text, field by field |
| RowFixtures.BankText3 | dashboard/src/utils/index.ts:36 | Row TX-3's search text, field by field |
| RowFixtures.BankText4 | dashboard/src/utils/index.ts:37 | Row TX-4's search text, field by field |
| RowFixtures.BankEmptyQuery | dashboard/src/utils/index.ts:41 | The empty query returns all 4 sample rows |
| RowFixtures.BankError | dashboard/src/utils/index.ts:42 | "error" returns exactly TX-2 and TX-4 |
| RowFixtures.BankPaddedError | dashboard/src/utils/index.ts:48 | "  error  " returns what "error" returns: 2 rows |
| RowFixtures.BankKakaoBank | dashboard/src/utils/index.ts:43 | "KakaoBank" returns exactly TX-1 and TX-4 |
| RowFixtures.BankMissing | dashboard/src/utils/index.ts:44 | "does-not-exist" returns no row |
| RowFixtures.BankAmount | dashboard/src/utils/index.ts:45 | "3000" returns exactly TX-3 |
| RowFixtures.BankId | dashboard/src/utils/index.ts:49 | "tx-3" returns exactly TX-3 |
| RowFixtures.BankTossBank | dashboard/src/utils/index.ts:50 | "TOSS BANK" returns no row, because the channel text "tossbank" has no space |
| RowFixtures.ApiText1 | dashboard/src/app/page.tsx:33 | Row TX-1's search text in the untyped revision, field by field |
| RowFixtures.ApiText2 | dashboard/src/app/page.tsx:34 | Row TX-2's search text in the untyped revision, field by field |
| RowFixtures.ApiText3 | dashboard/src/app/page.tsx:35 | Row TX-3's search text in the untyped revision, field by field |
| RowFixtures.ApiText4 | dashboard/src/app/page.tsx:36 | Row TX-4's search text in the untyped revision, field by field |
| RowFixtures.ApiEmptyQuery | dashboard/src/app/page.tsx:40 | The empty query returns all 4 sample rows |
| RowFixtures.ApiError | dashboard/src/app/page.tsx:41 | "error" returns exactly TX-2 and TX-4 |
| RowFixtures.ApiPaddedError | dashboard/src/app/page.tsx:47 | "  error  " returns what "error" returns: 2 rows |
| RowFixtures.ApiOpenApi | dashboard/src/app/page.tsx:42 | "OpenAPI" returns exactly TX-1 and TX-4 |
| RowFixtures.ApiMissing | dashboard/src/app/page.tsx:43 | "does-not-exist" returns no row |
| RowFixtures.ApiAmount | dashboard/src/app/page.tsx:44 | "3000" returns exactly TX-3 |
| RowFixtures.ApiId | dashboard/src/app/page.tsx:48 | "tx-3" returns exactly TX-3 |
| RowFixtures.ApiInternal | dashboard/src/app/page.tsx:49 | "INTERNAL" returns exactly TX-2 and TX-3 |
| Theme.IsMode | dashboard/src/app/page.tsx:107-110 | The test that a URL or stored value is exactly "dark" or "light". No contract of its own: `Theme.ResolveTheme` and `Theme.FirstMode` state how it decides the theme |
| Theme.ModeName | dashboard/src/app/page.tsx:140 | `dark ? "dark" : "light"` is a theme name, and it is "dark" exactly for dark |
| Theme.ResolveTheme | dashboard/src/app/page.tsx:107-111 | A URL theme name wins; otherwise a saved theme name; otherwise the system setting |
| Theme.FirstMode | dashboard/src/app/page.tsx:110 | The first candidate that is a theme name, or none when no candidate is one |
| Theme.ResolveIsFirstMode | dashboard/src/app/page.tsx:107-111 | The resolved theme is the first theme name among URL value, saved value and system setting |
| Theme.HasPreference | dashboard/src/app/page.tsx:128-129 | JavaScript truthiness of the stored `finora.theme` value: present and non-empty. No contract of its own: `Theme.OnSystemChange` states that a preference stops the handler |
| Theme.RegistersListener | dashboard/src/app/page.tsx:123-124 | The handler is registered when the URL read by the listener effect has no `theme` value. No contract of its own: `Theme.Mount` and `Theme.NoListenerAfterResolve` state where it holds |
| Theme.InitTheme | dashboard/src/app/page.tsx:105-119 | Resolves the theme; afterwards the URL names it; the URL is unchanged when it already held a theme name; no other parameter changes |
| Theme.Mount | dashboard/src/app/page.tsx:105-124 | After mount the URL names the resolved theme, nothing is saved yet, and the handler is registered exactly when the loaded URL had no `theme` value |
| Theme.UrlWins | dashboard/src/app/page.tsx:107-116 | A theme name in the URL decides the theme whatever is saved, leaves the URL alone and registers no handler |
| Theme.MountStable | dashboard/src/app/page.tsx:105-119 | Reloading a mounted page resolves the same theme and rewrites nothing, whatever the system now prefers |
| Theme.NoListenerAfterResolve | dashboard/src/app/page.tsx:116-124 | Once the resolving effect has synced the URL, the `savedInUrl` check returns: the URL always names a theme then |
| Theme.SetDark | dashboard/src/app/page.tsx:138-143 | A real change of `dark` saves its name under `finora.theme` and writes it to the URL; no change does nothing |
| Theme.Toggle | dashboard/src/app/page.tsx:226 | The toggle flips `dark`; the saved preference and the URL then name the new theme; every other parameter keeps its presence and its value |
| Theme.OnSystemChange | dashboard/src/app/page.tsx:126-131 | A system change is ignored without a registered handler or with a saved preference; otherwise `dark` follows it |
| Theme.FollowsSystemWhenUnset | dashboard/src/app/page.tsx:122-131 | Under `Theme.Mount`'s load-time registration rule: with nothing saved and no URL theme at load, the first system change is followed |
| Theme.SyncedPreserved | dashboard/src/app/page.tsx:126-143 | Every change after mount keeps the URL naming the current theme |
| Theme.ToggleTwice | dashboard/src/app/page.tsx:226 | Two toggles restore the theme and the URL value, with that theme saved |
| Theme.SystemIgnoredAfterToggle | dashboard/src/app/page.tsx:128-129 | After a toggle every system change is ignored |
| Theme.SystemFollowedOnce | dashboard/src/app/page.tsx:128-143 | A followed system change saves a preference, so any later one is ignored |
| Theme.ReloadAfterToggle | dashboard/src/app/page.tsx:107-124 | A reload after a toggle keeps the toggled theme, whatever the system prefers, and registers no handler |
| Dashboard.InitialSelection | dashboard/src/app/page.tsx:83-85 | Tab, range and search come from the URL, defaulting to "overview", "today" and "" |
| Dashboard.Mount | dashboard/src/app/page.tsx:83-151 | The mounted view holds the URL's selection, the URL mirrors it, a search write is pending, and every parameter other than tab and range keeps its presence and its value |
| Dashboard.SelectTab | dashboard/src/app/page.tsx:146 | A new tab is written to the URL at once; every other parameter keeps its presence and its value |
| Dashboard.SelectRange | dashboard/src/app/page.tsx:147 | A new range is written to the URL at once; every other parameter keeps its presence and its value |
| Dashboard.TypeSearch | dashboard/src/app/page.tsx:148-151 | A keystroke updates the search and leaves the URL alone; a write is pending after any change |
| Dashboard.Settle | dashboard/src/app/page.tsx:149 | The timer writes the current search to the URL; every other parameter keeps its presence and its value |
| Dashboard.TypeAllKeepsUrl | dashboard/src/app/page.tsx:148-151 | During a burst of keystrokes the URL does not change, and the search ends on the last keystroke |
| Dashboard.BurstPendingOrIdle | dashboard/src/app/page.tsx:148-151 | After a burst a search write is pending, unless the burst changed nothing and ended on the text already there |
| Dashboard.BurstWritesLast | dashboard/src/app/page.tsx:148-151 | On any page whose URL mirrors the selection, pending write or not, settling after a burst writes only the last keystroke's text |
| Dashboard.ReflectsPreserved | dashboard/src/app/page.tsx:146-151 | Every selection change and timer firing keeps the URL mirroring the selection |
| Dashboard.ReloadRestores | dashboard/src/app/page.tsx:83-85 | Reloading a settled page restores tab, range and search; an empty tab or range comes back as its default |
| Alerts.Shown | dashboard/src/components/Alerts.tsx:68-72 | The predicate passed to `alerts.filter`. No contract of its own: `Alerts.ListedIff` states what each filter lists |
| Alerts.FilteredAlerts | dashboard/src/components/Alerts.tsx:68-72 | Every listed alert satisfies the selected filter, and the list is no longer than the input |
| Alerts.FilteredAlertsSpec | dashboard/src/components/Alerts.tsx:68-72 | An alert is listed exactly when it satisfies the filter, as often as it occurs, in the original order |
| Alerts.ListedIff | dashboard/src/components/Alerts.tsx:68-72 | `unread` lists exactly the unread alerts, `critical` exactly the high-severity ones, and any other filter lists every alert |
| Alerts.OtherFilterKeepsAll | dashboard/src/components/Alerts.tsx:71 | Any filter other than `unread` and `critical`, `all` included, returns the alerts unchanged |
| Alerts.AllCount | dashboard/src/components/Alerts.tsx:98 | The `alerts.length` badge. No contract of its own: `Alerts.BadgesMatchLists` equates it with the length of the `all` list |
| Alerts.UnreadCount | dashboard/src/components/Alerts.tsx:108 | The unread badge never exceeds the all badge; `Alerts.BadgesMatchLists` equates it with the unread list's length |
| Alerts.CriticalCount | dashboard/src/components/Alerts.tsx:118 | The critical badge never exceeds the all badge; `Alerts.BadgesMatchLists` equates it with the critical list's length |
| Alerts.BadgesMatchLists | dashboard/src/components/Alerts.tsx:98-118 | Each button's badge count equals the length of the list that button shows |
| Alerts.SeverityTone | dashboard/src/components/Alerts.tsx:143-147 | High severity is red, medium is amber, anything else is cyan |
| Alerts.SeverityLabel | dashboard/src/components/Alerts.tsx:194 | The label is 긴급, 경고 or 정보 exactly when the tone is red, amber or cyan |
| Alerts.ActionLabel | dashboard/src/components/Alerts.tsx:202-205 | The label is one of the five button labels, and it is 재시도 exactly for an action other than investigate, monitor, verify and analyze |
| Alerts.CriticalIffUrgent | dashboard/src/components/Alerts.tsx:70 | An alert is under the critical filter exactly when its label reads 긴급 |
| Alerts.ActionLabelsDistinct | dashboard/src/components/Alerts.tsx:202-205 | The five known actions get five different labels |
| Alerts.AlertListAll | dashboard/src/components/Alerts.tsx:98 | The `all` list is the whole list of 5 alerts |
| Alerts.AlertListUnread | dashboard/src/components/Alerts.tsx:108 | The `unread` list is alerts 1 and 2, and its badge is 2 |
| Alerts.AlertListCritical | dashboard/src/components/Alerts.tsx:118 | The `critical` list is alerts 1 and 5, and its badge is 2 |
| Alerts.AlertListLabels | dashboard/src/components/Alerts.tsx:10-66 | The severity and action labels shown for each of the five alerts |

## Left out

- Browser globals: `window`, `document`, `localStorage`, `matchMedia` and `history.replaceState` become explicit state and parameters. The `try`/`catch` around storage access is not modelled: storage never throws here.
- `applyTheme` (the `dark` class on `<html>` and the `theme-color` meta tag) is DOM output and is not modelled.
- Theme.Mount: decides handler registration by the URL the page was loaded with, while the listener effect reads the URL when it runs. The resolving effect (`app/page.tsx:105-119`) is declared first and has always run by then, so the URL always names a theme and the `savedInUrl` check at `app/page.tsx:124` returns (`Theme.NoListenerAfterResolve`). React's effect ordering at mount is not modelled.
- Theme.FollowsSystemWhenUnset: holds only under `Theme.Mount`'s load-time registration rule. In the program as written the system preference is never followed. The listener effect at `app/page.tsx:123` reads the `theme` value that `app/page.tsx:116` has already written, so it returns before registering. Besides, `firstThemeApplied` is set at `app/page.tsx:114` before the guard at `app/page.tsx:139` runs, so `app/page.tsx:140` saves `finora.theme` at every mount and the handler would return at `app/page.tsx:129` anyway.
- Theme.Mount: the mount-time runs of the persist effect are not modelled, so nothing is saved at mount. In the program as written the first run sees `dark` from the first render, `false` from `useState(false)` (`app/page.tsx:91`), and saves and writes "light" (`app/page.tsx:139-142`). When the resolved theme is dark, the re-render that `setDark(true)` (`app/page.tsx:112`) causes runs the effect again with "dark". After mount, then, the resolved theme is what is saved. In the model a saved preference comes only from `SetDark`, that is, from a toggle or a followed system change.
- The removal of the media-query listener on unmount, and the listener lifecycle in general, are not modelled.
- Dashboard.Mount: the mount-time writes of `tab` and `range` are modelled. The 200 ms delay itself is not: the timer is the `pending` flag, and only firing and restarting are modelled.
- The transaction rows built with `Math.random` and the wall clock (`app/page.tsx:163-173`) are nondeterministic and not modelled.
- Chart.Bars: bar heights (`20 + rng() * 80`, floating point) are kept as their draw's numerator. Animation delays and the `ko-KR` time labels (`Date`, locale) are display only.
- Prng.StreamAt: the JavaScript accumulator `t` is a double that is never reduced. Only its value modulo 2^32 reaches `Math.imul`, `^` and `>>>`. The model's state is that residue. The bridge from the double to the residue is argued here, not proved. It holds while the accumulator stays below 2^53, that is, for about 2^22 draws from one generator.
- Prng.StreamAt: states draw i through i + 1 repeated additions, not the closed form `(seed >>> 0) + (i + 1) * 0x6D2B79F5`. The two agree modulo 2^32, but relating them needs 32-bit multiplication by a variable count, which the solver does not finish.
- Text.Trim: only ASCII whitespace (space, tab, line feed, vertical tab, form feed, carriage return) is removed. JavaScript's `trim` also removes Unicode spaces and line terminators.
- Text.Lower: only ASCII letters are lower-cased. JavaScript's `toLowerCase` also folds other scripts.
- UrlParams.WriteParam: a query is a map, so `URLSearchParams` ordering and repeated names are not modelled. The `value == null` branch is the empty-string branch: every caller passes a string.
- `runSelfTests` is modelled by its fixtures and their exact results, not by `console.assert`/`console.log` or the `__finora_tests_ran__` flag.
- Alerts: titles, descriptions and times are display text and are not modelled. The CSS class strings are modelled only as their three-way `Tone` choice. The "mark all read", "ignore" and rule buttons have no handlers in the source.
- Presentational components (`Overview`, `Table`, `Card`, `FormComponents`, `Transactions`) and the Java `Account` record are outside this model.
