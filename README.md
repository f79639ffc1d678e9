# Where Did My RAM Go — a verified model of the extension's logic

"Where Did My RAM Go?" is a browser extension. It counts the open tabs and
shows the count on the toolbar badge, coloured by how many tabs are open. It
also reports an estimate of the memory the tabs use.

- **Precise total.** When the browser exposes its process registry, the
  extension groups the tabs by renderer process. Each process's private bytes
  are shared equally among its tabs. A tab whose process cannot be looked up
  contributes a per-tab estimate instead. If the registry is missing, or the
  batched process query fails, every tab is estimated.
- **Per-tab estimate.** It starts from a site profile, chosen as the first
  category in a fixed chain whose URL substrings occur in the lower-cased URL.
  It adds capped amounts for the title and URL lengths. It then grows the heap
  with the time since the tab was last accessed, which the background script
  tracks in a map updated by four tab events. Finally it multiplies by a random
  fragmentation factor, rounds, and clamps the result to 30–800 MB.
- **Popup.** It shortens titles and URLs with an ellipsis, classes each tab as
  fresh, stale or very stale by idle time, and lists the most idle tab first.
- **Packaging script.** It decides which files stay out of the store archive,
  validates the manifest, and lists the missing icon sizes.

The project has one module per concern:

| file | module | models |
|---|---|---|
| `wrappers.dfy` | `Wrappers` | `Option` and `Result` |
| `decimal.dfy` | `Decimal` | `Number.prototype.toString()` on natural numbers, with its inverse |
| `tab_memory.dfy` | `TabMemory` | `estimateTabMemory` |
| `access_times.dfy` | `AccessTimes` | `tabAccessTimes`, a class whose map field the four event handlers update in place |
| `memory_usage.dfy` | `MemoryUsage` | `calculateMemoryUsage` and `calculateEstimatedMemoryUsage` |
| `tab_stats.dfy` | `TabStats` | the `tabStats` record, plus the badge text and colour chosen by `updateTabStats` |
| `popup.dfy` | `Popup` | `truncateText`, the staleness class, and the in-place sort of `displayTabs` |
| `store_package.dfy` | `StorePackage` | `shouldExcludeFile`, the checks of `validateManifest`, and the missing list of `validateIcons` |

How the model is built:

- **Loops become methods.** The code that works through loops keeps them as
  methods: the two aggregation passes, the share distribution, the exclusion
  scan, the manifest field loop, the icon loop and the sort. Each method is
  proved against a specification function. Its properties are then proved as
  lemmas about that function.
- **Pure code becomes functions.** The estimator, the badge and staleness
  classifications and `truncateText` are functions.
- **The environment becomes parameters.** The clock, the random numbers and the
  host's answers are parameters:
  - `now` is milliseconds;
  - `random` is the result of `Math.random()`, in [0, 1);
  - `HostAnswers` records whether the process registry exists, each tab's
    process-id lookup (`None` when it threw), and the batched process-info
    answer (`None` when it threw).

The arithmetic is over mathematical reals. `Math.round` is `floor(x + 0.5)`.

## Model

| member | source | states |
|---|---|---|
| TabMemory.ToLower | background.js:199 | Lower-casing keeps the length and every character that is not an upper-case ASCII letter. It turns each upper-case letter into the same letter in lower case, so no upper-case letter remains. |
| TabMemory.LowerChar | background.js:199 | One character: an upper-case ASCII letter becomes the same letter in lower case, and any other character is kept. |
| TabMemory.Includes | background.js:203-295 | `includes`: a pattern that begins the text occurs in it, and a pattern that occurs is no longer than the text. IncludesIff gives the full characterisation. |
| TabMemory.IncludesIff | background.js:203-295 | `includes` holds exactly when the pattern occurs as a slice of the text at some index. |
| TabMemory.LongerPatternAbsent | background.js:203-295 | A pattern longer than the URL never occurs in it. |
| TabMemory.FirstMatch | background.js:203-302 | The index of the chosen category is at most the number of categories, where that number means no match. FirstMatchIsFirst proves it is the first match. |
| TabMemory.FirstMatchIsFirst | background.js:203-302 | The chain picks the first category, in source order, that matches the URL: no earlier one matches, and the one picked does. |
| TabMemory.TableIsPlausible | background.js:203-302 | Every profile in the chain, and the default, has a heap of at least 45 MB, no negative part, and parts that sum to at least 100 MB. |
| TabMemory.ProfileFor | background.js:199-302 | The profile chosen for any URL is a table entry or the default profile, and so one of the plausible profiles. |
| TabMemory.ProfileIsFirstMatch | background.js:199-302 | When category k is the first to match the lower-cased URL, its profile is used. |
| TabMemory.UnmatchedUrlGetsDefault | background.js:296-302 | A URL that matches no category gets the default profile {60, 50, 20, 15}. |
| TabMemory.MixedCaseXComUsesTwitterProfile | background.js:199-229 | "X.com" is lower-cased, skips the four earlier categories, and is matched by the second pattern of the Twitter/X branch. |
| TabMemory.EmptyUrlMatchesNothing | background.js:199-302 | No pattern of any category occurs in the empty URL. |
| TabMemory.EmptyUrlProfile | background.js:199-302 | The empty URL gets the default profile. |
| TabMemory.TitleOf | background.js:200 | A missing title reads as the empty string, and a present one as itself. |
| TabMemory.TitleComplexity | background.js:305-306 | The title adds 1.5 MB per character up to 53 characters, and 80 MB from 54 characters on. It adds 0 exactly when the title is empty. |
| TabMemory.UrlComplexity | background.js:309-310 | The URL adds 0.3 MB per character up to 100 characters, and 30 MB beyond. It adds 0 exactly when the URL is empty. |
| TabMemory.HeapAdjustmentBounds | background.js:200-310 | The title adds 0–80 MB and the URL 0–30 MB. A missing title counts as empty. Empty strings add nothing. |
| TabMemory.BaseHeap | background.js:304-310 | The adjusted heap lies between the profile heap and the profile heap plus 110 MB. |
| TabMemory.LastAccessed | background.js:313 | The access time is the record when there is a non-zero one. It is the current time when the tab has no record or its record is 0. |
| TabMemory.TimeFactor | background.js:315 | Up to two hours, the factor is the idle time in hours. From two hours on it is exactly 2. It is 0 with no idle time, never above 2, and at least 0 for non-negative idle time. |
| TabMemory.TimeFactorMonotone | background.js:315 | The factor never decreases as idle time grows. |
| TabMemory.HeapGrowth | background.js:316 | The heap multiplier is at most 1.6, and at least 1 for non-negative idle time. |
| TabMemory.HeapGrowthMonotone | background.js:316 | The heap multiplier never decreases as idle time grows. |
| TabMemory.IdleGrowthBounds | background.js:313-316 | An untracked tab has time factor 0. A tab recorded at 0 has multiplier 1. A tab recorded in the past has factor in [0, 2] and multiplier in [1, 1.6]. |
| TabMemory.FragmentationFactor | background.js:319 | The fragmentation factor lies in [1.1, 1.4). |
| TabMemory.JsRound | background.js:322-329 | `Math.round` returns the integer within half a unit below or above its argument, with halves rounded up. |
| TabMemory.Clamp | background.js:332 | The clamp lands in [30, 800], keeps values already inside, and maps values below 30 to 30 and above 800 to 800. |
| TabMemory.ScaledEstimate | background.js:319-332 | Scaling, rounding and clamping give a whole number of MB in [30, 800]. |
| TabMemory.EstimateFrom | background.js:188-333 | For any profile, lengths, idle time and draw, the estimate is in [30, 800]. |
| TabMemory.Estimate | background.js:188-333 | For any tab, idle time and draw, the estimate is in [30, 800]. |
| TabMemory.EstimateTabMemory | background.js:188-333 | For any tab, access-time map, clock and draw, the estimate is in [30, 800]. |
| TabMemory.PreJitterMonotone | background.js:312-329 | The sum before the fragmentation factor never decreases as idle time grows. |
| TabMemory.ScaledEstimateMonotone | background.js:319-332 | With the draw fixed, a larger sum never gives a smaller estimate. |
| TabMemory.EstimateFromMonotone | background.js:312-332 | With the profile, lengths and draw fixed, the estimate never decreases as idle time grows. |
| TabMemory.EstimateMonotone | background.js:188-333 | With the draw fixed, a tab idle longer never gets a smaller estimate. |
| TabMemory.EstimateGrowsWithClock | background.js:313-332 | For any tab, a later clock never lowers its estimate: a recorded tab has been idle longer, and a tab without a usable record reads as just accessed at both clocks. |
| TabMemory.PreJitterAtLeast145 | background.js:304-329 | With non-negative idle time, the sum before the factor is at least 145 MB. |
| TabMemory.ScaledEstimateAtLeast160 | background.js:319-332 | A sum of at least 145 MB gives an estimate of at least 160 MB. |
| TabMemory.EstimateFromAtLeast160 | background.js:188-333 | With non-negative idle time, every plausible profile gives at least 160 MB, so the lower clamp never acts. |
| TabMemory.EstimateAtLeast160 | background.js:188-333 | With non-negative idle time, every tab is estimated at 160 MB or more. |
| TabMemory.ScaledEstimate190 | background.js:319-332 | A sum of 190 MB is estimated at 209–266 MB whatever the draw. |
| TabMemory.FreshDefaultEstimate | background.js:296-332 | The default profile with no title, no URL and no idle time gives 209–266 MB. |
| TabMemory.BlankTabEstimate | background.js:188-333 | A fresh tab with an empty URL and no title is estimated at 209–266 MB. |
| AccessTimes.Step | background.js:20-46 | Create, activate, and update with status "complete" record `now` for the tab. Remove deletes its entry. Any other update changes nothing. No other tab's entry changes. |
| AccessTimes.ReplayKeepsOtherTabs | background.js:20-46 | A sequence of events about other tabs leaves a tab's entry as it was. |
| AccessTimes.ReplayLastEventDecides | background.js:20-46 | After any sequence of events, a tab's entry is fixed by the last event about it: that event's time if it records one, absent if it was a removal. |
| AccessTimes.Tracker.constructor | background.js:11 | The tracker starts with an empty map. |
| AccessTimes.Tracker.OnCreated | background.js:20-25 | The map afterwards is the old map after a create event at `now`. |
| AccessTimes.Tracker.OnRemoved | background.js:27-32 | The map afterwards is the old map after a remove event. |
| AccessTimes.Tracker.OnUpdated | background.js:34-41 | The map afterwards is the old map after an update event with the given status. |
| AccessTimes.Tracker.OnActivated | background.js:44-49 | The map afterwards is the old map after an activate event at `now`. |
| AccessTimes.Tracker.LastAccessed | background.js:313 | The tracker answers with the recorded time when there is a non-zero one, and with the current time otherwise. |
| AccessTimes.CreateThenRemove | background.js:313 | A tab that was created and then closed reads as accessed `now`, not at its old record. |
| Decimal.DecimalString | background.js:66 | The badge numeral is non-empty, all digits, and has no leading zero. It is one digit exactly below 10. |
| Decimal.ParseDecimalString | background.js:66 | Reading the numeral back gives the number. |
| Decimal.DecimalStringInjective | background.js:66 | Different counts give different numerals. |
| MemoryUsage.Estimates | background.js:180-181 | One estimate per tab, each in [30, 800]. |
| MemoryUsage.SumBounds | background.js:177-185 | A sum of n estimates lies between 30n and 800n. |
| MemoryUsage.SumEstimates | background.js:178-182 | The loop's running total ends as the sum of the tabs' estimates. |
| MemoryUsage.WholeBatchEstimate | background.js:177-185 | The whole-batch estimate is never negative. |
| MemoryUsage.CalculateEstimatedMemoryUsage | background.js:177-185 | Returns the whole-batch estimate: the sum of the tabs' estimates divided by 1024 and rounded. |
| MemoryUsage.AddToGroup | background.js:122-125 | Adding a tab to a process's group adds exactly that process id to the keys. |
| MemoryUsage.GroupMapGroups | background.js:113-134 | Grouping is exact. Each process id maps to the tabs whose lookup answered it, in tab order. No tab sits in another group. There is a group exactly when some lookup succeeded. |
| MemoryUsage.GroupMapContents | background.js:117-125 | For any one process id, its group holds exactly its tabs, and without a group it has none. |
| MemoryUsage.GroupMapKeys | background.js:137-138 | The list of process ids is non-empty exactly when some lookup succeeded. |
| MemoryUsage.GroupByProcess | background.js:113-134 | The first pass builds exactly that grouping. Its accumulator holds the sum of the estimates of the tabs whose lookup failed. |
| MemoryUsage.FailedLookupSumBounds | background.js:117-134 | The failed-lookup sum is at least 0 and at most 800 MB per tab. |
| MemoryUsage.AllLookupsFailed | background.js:117-134 | When no lookup succeeds, every tab falls back on its own estimate, and the accumulator is the sum of all estimates. |
| MemoryUsage.DistributeShares | background.js:151-155 | The equal shares handed to a process's tabs add up to its memory. A process with no tab hands out nothing. |
| MemoryUsage.PrivateBytes | background.js:148 | A process's memory is its private bytes, or 0 when the answer has none. |
| MemoryUsage.MeasuredBytes | background.js:146-156 | The bytes attributed to tabs are never negative and never exceed the private bytes of all processes in the answer. |
| MemoryUsage.DistributeProcesses | background.js:146-156 | The second pass adds the private bytes, or 0 when missing, of each process that hosts a tab. It adds nothing for the others. |
| MemoryUsage.PreciseTotal | background.js:166 | The precise total, the failed-lookup estimates plus the measured bytes divided by 1048576 and rounded, is never negative. |
| MemoryUsage.MemoryUsage | background.js:103-174 | The cascade's total is never negative. CalculateMemoryUsage is proved equal to it. WholeBatchFallbackValue gives its value on the whole-batch fallback, and FailedLookupsRoundToZero its value when every lookup fails. |
| MemoryUsage.CalculateMemoryUsage | background.js:103-174 | Returns the cascade's total: the whole-batch estimate when the registry is missing or the batched call fails, otherwise the failed-lookup estimates plus the measured bytes, divided by 1048576 and rounded. The process ids in the batched answer are required to be distinct, being the keys of one object. |
| MemoryUsage.WholeBatchFallbackValue | background.js:103-185 | When the registry is missing, or the batched call fails after a lookup succeeded, the total is the sum of the tab estimates divided by 1024 and rounded. |
| MemoryUsage.WholeBatchFallback | background.js:103-185 | On the whole-batch fallback, the total lies between the rounded 30n/1024 and 800n/1024 for n tabs. |
| MemoryUsage.FailedLookupsRoundToZero | background.js:126-166 | With the registry present and every lookup failing, MB estimates land in the byte accumulator, so fewer than 655 tabs report a total of 0. |
| TabStats.Hex | background.js:70-72 | Each badge colour reaches the host as a seven-character string starting with "#". |
| TabStats.HexDistinct | background.js:70-72 | The three colours are different strings, so the host can tell the backgrounds apart. |
| TabStats.BadgeColorFor | background.js:69-72 | Green exactly up to 20 tabs, orange exactly for 21–50, red exactly beyond 50. |
| TabStats.BadgeColorMonotone | background.js:69-72 | Opening more tabs never gives a less alarming colour. |
| TabStats.Stats.constructor | background.js:4-8 | The record starts with no tabs, no memory, and the load time as last update. |
| TabStats.Stats.Update | background.js:52-74 | Afterwards the record holds the tab count, the current time and the cascade's memory total. The badge text is the count's decimal numeral, which reads back as the count, and the badge colour follows the thresholds. |
| Popup.TruncateText | popup.js:122-125 | A text that fits is returned unchanged. A longer one becomes its first n characters followed by "...". For n ≥ 0 the result is at most n + 3 long. For a negative n it is "...". |
| Popup.TruncateTextIdempotent | popup.js:122-125 | Shortening an already shortened text changes nothing. |
| Popup.TruncateTextKeepsPrefix | popup.js:122-125 | The result always starts with the kept head of the text. |
| Popup.CssName | popup.js:84-86 | Each class has its own CSS name: "fresh", "stale" or "very-stale", in both directions. |
| Popup.StalenessClassFor | popup.js:83-86 | "fresh" exactly up to 300 s, "stale" exactly for 300–1800 s, "very-stale" exactly beyond 1800 s. |
| Popup.StalenessClassMonotone | popup.js:83-86 | A tab idle longer never gets a fresher class. |
| Popup.SwapWithPrevious | popup.js:70 | Exchanges two neighbours, moves nothing else, and keeps the multiset of tabs. |
| Popup.SinkLeft | popup.js:70 | One insertion step extends the ordered prefix by one element, leaves the tabs after it where they were, and keeps the multiset of tabs. |
| Popup.SortByStaleness | popup.js:70 | After the sort, staleness never increases along the array, and the array is a permutation of its input. |
| StorePackage.ShouldExcludeFile | resources/create_store_package.js:134-151 | True exactly when the base name is listed or the relative path starts with a listed entry. |
| StorePackage.GitPrefixExcludesGithub | resources/create_store_package.js:143-148 | Because ".git" matches by prefix, every path under ".github/" is left out. |
| StorePackage.ListedNameAsPrefix | resources/create_store_package.js:143-148 | Any path that begins with a listed name is left out, whatever follows. |
| StorePackage.IncludedFilesAreKept | resources/create_store_package.js:20-48 | None of the six top-level files the archive must carry is excluded. |
| StorePackage.Truthy | resources/create_store_package.js:73-81 | JavaScript truthiness: falsy exactly for undefined, null, false, 0 and the empty string. Every other value, arrays and objects included, is truthy. |
| StorePackage.Get | resources/create_store_package.js:66-81 | On an object, a member is found exactly when the key is present, and the member's value is returned. On an array or string, a decimal index below the length yields the element or the one-character string. Any other key yields nothing, and so do null, booleans and numbers. |
| StorePackage.ValidateManifest | resources/create_store_package.js:66-90 | Succeeds, returning the manifest unchanged, exactly when it is acceptable. Otherwise the first failing check names the error: version 3, then name, version and description in that order, then the 128-pixel icon. |
| StorePackage.SizeLabel | resources/create_store_package.js:105 | The label of a size is its numeral, then "x", then the same numeral again. |
| StorePackage.SizeLabelInjective | resources/create_store_package.js:105 | Different sizes have different labels. |
| StorePackage.AbsentSizes | resources/create_store_package.js:99-107 | The missing list contains exactly the required sizes whose file is absent. |
| StorePackage.AbsentSizesIncreasing | resources/create_store_package.js:99-107 | Filtering keeps the order of the required sizes. |
| StorePackage.MissingIcons | resources/create_store_package.js:99-107 | The loop's list is the labels of the absent sizes, in the order checked. |
| StorePackage.MissingLabelsExact | resources/create_store_package.js:99-107 | A size's label is listed exactly when its icon file is absent. |
| StorePackage.MissingIconsInOrder | resources/create_store_package.js:99-107 | The missing list is in increasing size order, with no repeats. |

## Left out

- **Host plumbing:** listener registration, `chrome.storage`,
  `chrome.action`, the tab queries, the popup message protocol and the
  background script's `console.log` calls (background.js:15, 21, 28, 36, 76,
  107, 127, 158, 168 and 359). Their
  results are parameters, and the badge text and colour are returned instead
  of sent.
- **Scheduling:** timers, `setTimeout`/`setInterval`, and overlapping
  asynchronous `updateTabStats` runs. Each handler and each aggregation is
  modelled as one atomic step. The refresh each handler starts
  (background.js:24, 31 and 39, and 48 through a one-second `setTimeout`) is
  not part of the Tracker methods. TabStats.Stats.Update is a separate step.
- **The clock:** `Date.now()` is a single `now` per aggregation. The source
  reads the clock again for each tab, and twice within one estimate: once for
  the missing-record default and once for the idle time (background.js:313
  and 314).
- **Floating point:** IEEE doubles are modelled by reals, and
  `Math.random()` by a parameter in [0, 1).
- MemoryUsage.DistributeShares: the shares add back to the process's memory
  exactly over reals. With doubles the sum can differ in the last bits.
- TabMemory.ToLower: lower-cases ASCII letters only. Full Unicode case mapping
  is not modelled.
- Popup.TruncateText: strings are sequences of characters (Unicode scalar
  values), not of the UTF-16 code units that JavaScript's `length` and
  `substring` count. For text outside the Basic Multilingual
  Plane the results differ. A title of 40 emoji has length 80 in the source,
  so `truncateText` cuts it to 20 emoji and "...", while the model keeps it
  whole. The same applies to the title and URL lengths behind
  TabMemory.TitleComplexity and TabMemory.UrlComplexity. TabMemory.Includes is
  unaffected: UTF-16 is self-synchronising, so an occurrence over code units
  is an occurrence over characters.
- **Undefined URLs:** a tab whose `url` is undefined makes the source throw,
  which sends TabStats.Stats.Update down its catch branch. The model takes
  every URL as a string.
- **Time factor at negative idle time:** it is not floored at 0. The code
  leaves a negative idle time, from a record in the future, unfloored, and the
  model follows the code.
- TabStats.Stats.Update: models the successful path only. Its catch branch
  refreshes the count and badge without the memory total. It is reached when
  a host call fails. It is also reached when a tab whose `url` is undefined
  gets estimated. The lower-casing at background.js:199 throws, and the
  fallback at background.js:172 estimates that tab again and throws again.
  The handler at background.js:75 then catches the error.
- **Process answer shape:** the batched process-info answer is a sequence of
  entries in the order it is enumerated. Only its `privateMemory` field is
  read.
- StorePackage.Get: covers an object's own members and the decimal indices
  of arrays and strings. Inherited JavaScript properties such as `length` are
  not modelled.
- **Packaging I/O:** file existence checks, reading and JSON-parsing the
  manifest, `path.basename`/`path.relative`, the zip archive and console
  output. The file names, the parsed manifest and the set of existing icon
  sizes are inputs.
- **Out of scope:** duplicate-tab detection and the `getAllTabs`/`getTabInfo`
  requests, which the popup sends but the background script does not handle.
  The DOM rendering, notifications and fun facts of the popup. The icon
  generators.
- Popup.SortByStaleness: proves ordering and permutation, not stability, and
  sorts by insertion. The order the engine's `Array.prototype.sort` gives
  among equally stale tabs is not stated. A staleness of NaN, for which the
  comparator is not a total order, is not modelled.
- Popup.TruncateText: the n + 3 bound on the result's length holds only for
  n ≥ 0. For a negative n the source also returns "...", which is longer.
