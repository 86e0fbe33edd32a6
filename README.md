# Focus-Forge block list and usage tracker, modelled in Dafny

Focus-Forge is a browser extension. It does two things. First, it blocks a
user-edited list of sites while "study mode" is on. Second, it counts visits
per hostname and shows a short summary in its popup. This project models the
logic of the two scripts that do this:

- **The popup** (`popup.js`). It keeps an ordered list of blocked sites with no
  duplicates. `addSite` trims the typed text, lower-cases it, rejects blank and
  duplicate entries, then appends it. `removeSite` splices one index out. The
  power button flips the study-mode flag. Each change is sent to the
  background script. The insights tab turns the usage map into a report:
  entries sorted by visits, the top five, total visits and time, the number of
  sites, and times written `Xm Ys`.
- **The background script** (`background.js`). It mirrors the list and the flag
  that come in by message. When storage has no list, it falls back to four
  built-in sites. It builds the rule batch for the browser's request-blocking
  engine: remove ids `1..n`, and, with study mode on, add one `||site^` block
  rule per site. It also counts visits per hostname, with the first `www.`
  taken out, when a tab finishes loading or becomes active.

Modules: `Common` holds the shared values and messages, and `JsString` the
JavaScript string built-ins. `BlockingRules` holds the rule batch and a model
of the rule engine. `UsageTracking` holds the map update and the event
filters. `Background` and `Popup` are the two scripts, each a class whose
fields the methods update in place. `Insights` is the pure summary.
`Extension` connects a popup action to the background listener, and
`Scenarios` gives concrete examples.

The foreign calls become values:
- The storage reads are constructor-like methods that take the stored value
  (`None` when it is missing).
- `new URL(url).hostname` is an input. `None` means the parser threw.
- `chrome.tabs.get` is an input: the url of the tab it returned.
- Each popup method returns the message it would send.
- `UpdateBlockingRules` returns the `updateDynamicRules` argument.

`background.js` has no dwell-time timer, no notion of a single active
session, no clamping of elapsed time, no recency window and no skipping of
repeated events. The model follows the code:
- every qualifying event adds one visit (`UsageTracking.TrackAllCounts`,
  `Scenarios.RepeatedLoadCountsTwice`);
- `totalTime` is never written, so it always reads as 0
  (`Insights.UntimedSpendsNoTime`);
- the key loses the first `www.` wherever it occurs, not only a leading one
  (`Scenarios.HostKeyInside`);
- only `chrome://` urls are filtered. `chrome-extension://` and `about:` urls
  are tracked if they parse.

## Model

| member | source | states |
|---|---|---|
| JsString.IsJsWhitespace | popup.js:43 | definition of the code points `trim` strips, the ECMAScript WhiteSpace and LineTerminator sets: tab, line feed, vertical tab, form feed, carriage return, space, U+00A0, U+1680, U+2000 to U+200A, U+2028, U+2029, U+202F, U+205F, U+3000 and U+FEFF; see `JsString.Trim` |
| JsString.SkipBlanks | popup.js:43 | the index reached from `i` is the first non-whitespace position at or after `i` (or the end), and everything skipped is whitespace |
| JsString.CutTrailingBlanks | popup.js:43 | the end reached from `hi` lies in `lo..hi`, everything cut between it and `hi` is whitespace, and the character before it is non-whitespace unless it is `lo` |
| JsString.LeadingCount | popup.js:43 | the number of leading characters `trim` cuts: all of them are whitespace, and the next character, if any, is not |
| JsString.Trim | popup.js:43 | `trim()`: the result is the slice of the input that starts after the leading whitespace (`LeadingCount`), with only whitespace before and after it; no longer than the input; empty exactly when the input is all whitespace; otherwise it starts and ends with non-whitespace, so the slice is the whole text between the leading and trailing whitespace |
| Common.OrDefault | background.js:11-12 | definition of `data.x || fallback` for a missing stored value, in both scripts (also popup.js lines 75-76); see `Background.BackgroundState.LoadConfig`, `Popup.PopupState.LoadStored` and `Extension.Start` |
| Common.DefaultSites | background.js:11 | definition of the four built-in sites, the same list as popup.js line 75; see `Popup.DefaultSitesBlockable`, `Background.BackgroundState.LoadConfig` and `Popup.PopupState.LoadStored` |
| Common.Truthy | background.js:75 | definition of JavaScript truthiness for the values a message field can hold; see `Background.BackgroundState.OnMessage` |
| Common.SitesMessage | popup.js:31 | definition of the message `{ blockedSites }`; see `Popup.PopupState.AddSite`, `Popup.PopupState.RemoveSite` and `Extension.AddAndSync` |
| Common.ModeMessage | popup.js:85 | definition of the message `{ studyMode }`; see `Popup.PopupState.TogglePower` and `Extension.ToggleAndSync` |
| Common.UsageQuery | popup.js:122 | definition of the message `{ getUsageData: true }`; see `Extension.QueryUsage` |
| JsString.TrimEmptyIffBlank | popup.js:43-44 | trimming gives the empty string exactly when every character of the input is whitespace, so `!site` rejects exactly the blank inputs |
| JsString.TrimIdempotent | popup.js:43 | trimming twice is trimming once |
| JsString.LowerChar | popup.js:43 | definition of one character of `toLowerCase` over ASCII: a capital moves to the letter 32 code points later, every other character is kept; see `JsString.ToLower` |
| JsString.ToLower | popup.js:43 | same length; no ASCII capital is left; every capital moves to its lower-case letter; every other character is kept |
| JsString.StartsWith | background.js:102 | definition of `startsWith`: the prefix is no longer than the string and equals its first characters; used by `UsageTracking.AfterUpdated` and `UsageTracking.AfterActivated` |
| JsString.IndexFrom | background.js:84 | the position found is a match at or after the start, with no match between; `None` means there is no match at or after the start |
| JsString.IndexOf | background.js:84 | the position found is the first occurrence of the pattern; `None` means it does not occur |
| JsString.ReplaceFirst | background.js:84 | `replace` with a string pattern: no occurrence leaves the string unchanged; otherwise the first occurrence becomes the replacement, the text before and after it kept, and the length changes by the difference |
| UsageTracking.HostKey | background.js:84 | a hostname without `www.` is kept as it is; otherwise exactly the first `www.` is cut (4 characters shorter, the text before and after it kept); a leading `www.` is cut off the front |
| UsageTracking.Track | background.js:82-98 | an unparsable url leaves the map unchanged; otherwise the key is added; a new key gets `visits = 1`, `lastVisit = now` and no `totalTime`; an existing key gets one more visit and `lastVisit = now`, its other fields kept; every other record is unchanged |
| UsageTracking.TrackPreservesInvariants | background.js:87-91 | tracking keeps "no record has a `totalTime`" and "every record has at least one visit" |
| UsageTracking.TrackAllCounts | background.js:87-91 | after any run of events, a key's visits grew by exactly the number of events for it, with no de-duplication; the key is present exactly when it was before or some event named it; records no event named are unchanged |
| UsageTracking.TrackableUrl | background.js:101-113 | definition of the url test both listeners share: present, non-empty and not starting with `chrome://`; see `UsageTracking.AfterUpdated` and `UsageTracking.AfterActivated` |
| UsageTracking.AfterUpdated | background.js:101-105 | `onUpdated` changes the map only for status `"complete"` and a non-empty url not starting with `chrome://`, and then exactly as `trackSiteUsage` does |
| UsageTracking.AfterActivated | background.js:108-113 | `onActivated` changes the map only for a non-empty url not starting with `chrome://`, whatever the load status, and then exactly as `trackSiteUsage` does |
| BlockingRules.IdRange | background.js:22 | the remove ids are `1, 2, ..., n` in order |
| BlockingRules.RuleBatch | background.js:21-61 | `removeRuleIds` is `[1..|sites|]` whatever the mode; with study mode off no rules are added; with it on, rule `i` has id `i+1`, priority 1, action block, filter `"||" + sites[i] + "^"` and resource type `main_frame` |
| BlockingRules.UrlFilter | background.js:45 | definition of the filter `` `||${site}^` ``; see `BlockingRules.FilterRoundTrip` and `BlockingRules.FilterValidIffBlockable` |
| BlockingRules.BlockRule | background.js:41-47 | definition of the rule object for site `i`: id `i+1`, priority 1, action block, filter `||site^`, resource type `main_frame`; see `BlockingRules.RuleBatch` |
| BlockingRules.BlockRules | background.js:40-48 | definition of the rules `sites.map` builds; see `BlockingRules.RuleBatch` and `BlockingRules.BatchBlocksListedSites` |
| BlockingRules.FilterRoundTrip | background.js:45 | the site can be read back out of its `||site^` filter |
| BlockingRules.BatchBlocksListedSites | background.js:40-48 | with study mode on, the sites read back from the added rules are the listed sites, in list order |
| BlockingRules.BatchIdsDistinct | background.js:22-48 | the remove ids are distinct, the added ids are distinct, and every added id is also removed |
| BlockingRules.FilterValidIffBlockable | background.js:45 | the engine accepts the filter `||site^` exactly when the site is ASCII and does not start with `*` |
| BlockingRules.ApplyUpdate | background.js:50-53 | `updateDynamicRules`: a batch is refused whole exactly when an added rule has an invalid filter, an added id is installed and not removed, or two added rules share an id; an accepted batch keeps every installed rule it does not remove, installs every added rule under its id, and holds nothing else |
| BlockingRules.Intended | background.js:39-53 | the rule set a list and flag call for: ids `1..n` with rule `i+1` blocking site `i` when on; empty when off |
| BlockingRules.BatchInstallsIntended | background.js:50-53 | applied to installed rules whose ids are within `1..|sites|`, with study mode off or every site blockable, the engine accepts the batch and ends with exactly the intended rule set |
| BlockingRules.StaleRuleSurvives | background.js:22 | block three sites with study mode on, then send a two-site list with study mode off: rule 3 for the dropped site is still installed |
| BlockingRules.ReplacingBatch | background.js:22 | the corrected batch adds the same rules as the original and removes ids `1, 2, ..., max(previous, new list length)` in order |
| BlockingRules.ReplacingBatchInstallsIntended | background.js:21-61 | whatever the previous list installed, the corrected batch, with study mode off or every site blockable, leaves exactly the intended rule set, with ids again within `1..|sites|` |
| BlockingRules.BatchAcceptedIffBlockable | background.js:40-53 | with study mode on, the engine accepts the batch exactly when every listed site is blockable: the batch as written whatever was installed, the corrected batch whenever the installed ids lie within `1..previous` |
| BlockingRules.AsWrittenAcceptedIffBlockable | background.js:40-53 | with study mode on, the batch as written is accepted, whatever rules are installed, exactly when every listed site is blockable |
| Background.ModeStatus | background.js:73 | definition of the `status` text `OnMessage` sends back for a flag; see `Background.BackgroundState.OnMessage` |
| Background.BackgroundState.constructor | background.js:1-7 | the state starts with an empty list, study mode off and an empty usage map |
| Background.BackgroundState.UpdateBlockingRules | background.js:21-61 | the batch passed to the engine is the rule batch for the current list and flag |
| Background.BackgroundState.LoadConfig | background.js:10-14 | a missing stored list becomes the four built-in sites, while a stored empty list is kept; a missing flag becomes `false`; then the rules are updated for the new state |
| Background.BackgroundState.LoadUsage | background.js:16-18 | the usage map becomes the stored one, or `{}` when none is stored |
| Background.BackgroundState.OnMessage | background.js:64-79 | a present `blockedSites` array replaces the list and updates the rules with the old flag; a boolean `studyMode` replaces the flag and updates the rules again; a non-boolean `studyMode` is ignored; a truthy `getUsageData` is answered with the map; the responses come in call order |
| Background.BackgroundState.TrackSiteUsage | background.js:82-98 | the imperative update leaves the map equal to `Track` of the old map; list and flag unchanged |
| Background.BackgroundState.OnUpdated | background.js:101-105 | the listener leaves the map as `AfterUpdated` says |
| Background.BackgroundState.OnActivated | background.js:108-113 | the listener leaves the map as `AfterActivated` says |
| Popup.Normalize | popup.js:43 | `trim().toLowerCase()`: as long as the trimmed input, each character the lower-case form of the trimmed input's character there; empty exactly for a blank input, no longer than it, and with no ASCII capital |
| Popup.NormalizeIdempotent | popup.js:43-48 | normalising a normalised site gives it back, so a stored site typed again is caught as a duplicate |
| Popup.SitesAfterAdd | popup.js:42-53 | a blank normalised input leaves the list unchanged; so does a site already present; otherwise the list grows by one, the earlier entries are unchanged and the last entry is the normalised site; a duplicate-free list stays duplicate-free |
| Popup.SitesAfterCheckedAdd | popup.js:42-53 | the corrected add turns away a site the engine would refuse and otherwise adds as `addSite` does; it keeps a blockable list blockable and a duplicate-free list duplicate-free |
| Popup.AddOutcomeOf | popup.js:44-49 | definition of the three ways `addSite` ends (blank, duplicate, added); see `Popup.PopupState.AddSite` and `Popup.SitesAfterAdd` |
| Popup.CheckedAddInstallsIntended | popup.js:42-53 | after a checked add to a blockable list, when the installed ids lie within `1..|new list|`, the batch for the new list is accepted and installs exactly the intended rules in either mode |
| Popup.DefaultSitesBlockable | popup.js:75 | the four built-in sites are all blockable |
| Popup.SpliceStart | popup.js:57 | definition of the start position `splice` uses, which lies within `0..n`; see `Popup.SitesAfterRemove` for the index cases |
| Popup.RemoveAt | popup.js:57 | one element fewer, the others in order; the removed element is the only change to the multiset; no new element appears; duplicate-freedom is kept |
| Popup.SitesAfterRemove | popup.js:56-60 | `splice(index, 1)` for `0 <= index < n` removes exactly element `index`; an index at or past the end changes nothing; a negative index counts from the end; one below `-n` removes the first element; an empty list stays empty; no new element appears; duplicate-freedom is kept |
| Popup.PopupState.constructor | popup.js:9-10 | the popup starts with an empty list, study mode off and an empty text box |
| Popup.PopupState.LoadStored | popup.js:74-79 | a missing stored list becomes the four built-in sites; a missing flag becomes `false` |
| Popup.PopupState.AddSite | popup.js:42-53 | the list becomes `SitesAfterAdd` of the old list and text; the outcome is blank, duplicate or added; only an add clears the box and sends `{blockedSites}` |
| Popup.PopupState.RemoveSite | popup.js:56-60 | the list becomes `SitesAfterRemove` of the old list, and the new list is sent |
| Popup.PopupState.TogglePower | popup.js:82-87 | the flag is negated and sent; the list is unchanged |
| Popup.ToggleTwice | popup.js:82-87 | two presses restore the flag |
| Insights.ToStat | popup.js:131-136 | an entry maps to `{site, visits, totalTime}` with the key and visits kept and a missing time read as 0 |
| Insights.Stats | popup.js:131-136 | one entry per key, in key order, each exactly `ToStat` of that key and its record: the key, its visits and its time (0 when missing) |
| Insights.Insert | popup.js:137 | inserting adds exactly that entry to the multiset |
| Insights.InsertSorted | popup.js:137 | inserting into a list sorted by non-increasing visits keeps it sorted |
| Insights.SortByVisits | popup.js:137 | the sorted array has non-increasing visits and is a permutation of the entries |
| Insights.SumVisits | popup.js:160 | definition of `reduce((sum, x) => sum + x.visits, 0)`; see `Insights.SumsOfSort` and `Insights.Summarize` |
| Insights.SumTime | popup.js:161 | definition of `reduce((sum, x) => sum + x.totalTime, 0)`; see `Insights.SumsOfSort` and `Insights.UntimedSpendsNoTime` |
| Insights.SumsOfSort | popup.js:160-161 | sorting changes neither the total visits nor the total time |
| Insights.PrefixDominates | popup.js:154 | in a sorted list no entry outside the first `n` has more visits than one inside them |
| Insights.TopOfSorted | popup.js:154 | the first `n` of a sorted permutation are sorted, come from the entries, and no other entry has more visits than any of them |
| Insights.Summarize | popup.js:131-166 | the report lists `min(5, n)` sites, most visited first, all drawn from the entries; no entry left out has more visits than a listed one; `totalVisits` and `totalTimeSpent` are the sums over all entries; `uniqueSites` is their count |
| Insights.DistinctCard | popup.js:162 | a list of distinct keys has as many elements as its set, so the count of entries is the number of keys |
| Insights.LoadInsights | popup.js:122-142 | no response gives "no usage data"; an empty map gives "no sites tracked"; otherwise the report over every entry, with `uniqueSites` equal to the size of the map |
| Insights.UntimedSpendsNoTime | popup.js:135-161 | over a map with no `totalTime` fields, which is every map the background builds, the total time is 0 |
| Insights.ZeroTimes | popup.js:161 | entries whose times are all 0 sum to 0 |
| Insights.JsRem | popup.js:148 | JavaScript `%` by a positive divisor: the dividend minus the result is the divisor times the quotient truncated toward zero, so the result takes the sign of the dividend and is smaller than the divisor in absolute value |
| Insights.MinutesSeconds | popup.js:145-150 | for `ms >= 0`: `seconds < 60`, `minutes >= 0` and `(minutes*60 + seconds)*1000 <= ms < (minutes*60 + seconds + 1)*1000`; for negative `ms` the minutes are negative and the seconds lie in `(-60, 0]`, as JavaScript's floor and `%` give |
| Insights.NatToDecimal | popup.js:149 | the text is non-empty decimal digits with no leading zero, and its value is the number |
| Insights.IntToString | popup.js:149 | definition of a template literal's integer text: a `-` before the digits of a negative number; see `Insights.NatToDecimal` and `Insights.FormatTimeRoundTrip` |
| Insights.FormatTimeRoundTrip | popup.js:145-150 | for `ms >= 0` the text `Xm Ys` reads back to exactly the minutes and seconds computed |
| Insights.FormatTime | popup.js:145-150 | definition of `formatTime`: `${minutes}m ${seconds}s` of `MinutesSeconds`; see `Insights.FormatTimeRoundTrip` and `Scenarios.FormatTimeExample` |
| Extension.Start | popup.js:74-79 | when both scripts read the same stored list and flag, they start mirrored, with the defaults for missing values, an empty usage map, and the batch for that state |
| Extension.AddAndSync | popup.js:29-53 | after an add and its message, popup and background hold the same list and flag, the list is `SitesAfterAdd` of the old one and the flag is unchanged; one rule batch follows an add, none a rejected add |
| Extension.RemoveAndSync | popup.js:56-60 | after a removal and its message, popup and background agree, the list is `SitesAfterRemove` of the old one and the flag is unchanged, and one batch for the new list is issued |
| Extension.ToggleAndSync | popup.js:82-87 | after a toggle and its message, both hold the negated flag and the unchanged list, and one batch for it is issued |
| Extension.QueryUsage | popup.js:122-142 | the insights query reaches the background listener, which changes nothing, issues no batch and answers with exactly one response holding its map; the report is `LoadInsights` of that map, never "no usage data" |
| Scenarios.HostKeyLeading | background.js:84 | `www.example.com` is keyed `example.com` |
| Scenarios.HostKeyWithout | background.js:84 | `example.com` is keyed as it is |
| Scenarios.HostKeyInside | background.js:84 | `mywww.site.com` is keyed `mysite.com` |
| Scenarios.RepeatedLoadCountsTwice | background.js:87-91 | two events for the same page give `visits = 2` and the second time stamp |
| Scenarios.SummaryExample | popup.js:131-162 | `{a.com: 5 visits, 120000 ms; b.com: 2, 30000}` listed `b.com` first reports `[a.com, b.com]`, 7 visits, 150000 ms, 2 sites |
| Scenarios.FormatTimeExample | popup.js:145-150 | `formatTime(150000)` is `2m 30s` |
| Scenarios.UmlautSiteKept | popup.js:43 | `addSite` normalises `bücher.de` to itself: ASCII-only lower-casing keeps the `ü` |
| Scenarios.UnblockableSiteBlocksNothing | background.js:40-53 | `bücher.de` added to the built-in list and study mode turned on: the engine refuses the batch, so none of the five sites is blocked |

## Findings

| source | as written | input that shows it | evidently intended | confidence | as-written member | corrected member |
|---|---|---|---|---|---|---|
| background.js:22 | `removeRuleIds` comes from the new list, so it is `1..n` of the new length | block `a.com`, `b.com`, `c.com` with study mode on, then send `[a.com, b.com]` with study mode off: rule 3 (`c.com`) stays installed and `c.com` is still blocked | also remove the ids the previous, longer list installed, so the installed rules always match the current list and mode | medium, not executed; rests on the engine keeping dynamic rules whose ids are not removed | `BlockingRules.StaleRuleSurvives` | `BlockingRules.ReplacingBatchInstallsIntended` |
| background.js:40-53 | `addSite` accepts any non-blank text, and each site becomes a rule filter `||site^` in one atomic batch | add `bücher.de` (or `*.example.com`) to the list and turn study mode on: the engine refuses the whole batch because a filter is not ASCII (or starts with `||*`), and none of the listed sites is blocked | a site the engine cannot block is turned away when it is added, so the other sites stay blocked | low, not executed; rests on the engine's documented `urlFilter` restrictions | `Scenarios.UnblockableSiteBlocksNothing` | `Popup.CheckedAddInstallsIntended` |

`Background.BackgroundState.UpdateBlockingRules` still returns the batch as
written, because it models the code. The corrected batch
`BlockingRules.ReplacingBatch` is the one for which the engine is proved to
end with exactly the intended rules whatever was installed before. In the
same way, `Popup.PopupState.AddSite` keeps the unchecked add, and
`Popup.SitesAfterCheckedAdd` is the corrected add for which every batch is
proved accepted.

## Left out

- `content.js`: a stub message responder and a DOM class change, with no logic.
- Rendering and UI: `renderList`, `updatePowerButton`, tab switching, `alert`, and the HTML report text. The report's values and `formatTime` are modelled.
- `chrome.storage` reads and writes, `chrome.runtime.sendMessage`, `chrome.tabs.get`, and the `updateDynamicRules` call with its logging. They are foreign and asynchronous. Their results are parameters. What the popup writes to storage or sends is the message its method returns; what the background writes to storage (`chrome.storage.local.set({ usageData })`) is the new `usageData` field, and the argument of `updateDynamicRules` is the batch it returns.
- The interleaving of asynchronous callbacks, such as a storage read answering after an event. Each handler is modelled as one atomic step, and callers choose the order.
- URL parsing (`new URL(url).hostname`): a browser parser. The hostname, or a parse failure, is an input.
- Unicode case mapping: `ToLower` maps only ASCII capitals. `trim` strips the full ECMAScript whitespace set.
- JavaScript numbers: integers are unbounded. There are no floating-point values and no `NaN` from a stored record without `visits`.
- `Background.BackgroundState.OnMessage`: a `blockedSites` value that is truthy but not an array is not modelled. The popup only ever sends arrays.
- `Background.BackgroundState.OnMessage`: every `sendResponse` call is listed, although the browser delivers only the first.
- `Popup.SitesAfterRemove`: a non-integer index is not modelled. The UI only passes list positions.
- `Insights.SortByVisits`: the contract states sortedness and permutation but not stability. The model's insertion sort keeps equal-visit entries in their original order, as JavaScript's stable sort does.
- `UsageTracking.Track`: `usageData` is modelled as a map, not a plain JavaScript object. A hostname that names an inherited object property, such as `constructor` or `toString`, is not modelled. In the source such a lookup finds a truthy inherited value, so no record is created and the map's own keys do not change; the model adds a new record.
- `BlockingRules.ApplyUpdate`: the engine's validation covers only the two `urlFilter` restrictions a site from the list can break (ASCII only, no leading `||*`), besides id clashes. The limit on the number of dynamic rules is not modelled, and neither are checks on fields that `updateBlockingRules` always sets to valid constants. `BlockingRules.BatchInstallsIntended` and `BlockingRules.ReplacingBatchInstallsIntended` hold for this engine.
- `BlockingRules.BatchAcceptedIffBlockable`: the corrected batch's half assumes the installed ids lie within `1..previous`, as the previous corrected batch leaves them (`BlockingRules.ReplacingBatchInstallsIntended`). A rule installed by some other means under a larger id that the new list reuses makes the engine refuse the batch. The as-written half has no such assumption.
- `Insights.LoadInsights`: the order of `Object.entries` is an input (`keys`, each key once), not derived from insertion order.
- Dwell time: `background.js` never measures time spent on a site, so there is no timer, session, clamping, recency filter or de-duplication to model.
