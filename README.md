# Intrusion-detection web front end: a verified model

This project models the client-side logic of the intrusion-detection web
application, the part that decides what is sent to the prediction
service and how the answers are shown:

- **Batch prediction page**: the CSV acceptance rule for uploads, the page state across an upload (success, server failure, rejected file), the per-sample result rows, and the history of the ten most recent runs. It also covers the colour and icon tables for attack labels, the severity thresholds, the five-range confidence histogram, and the per-batch time series of at most ten groups.
- **Single prediction page**: the three checks that guard a request: non-blank input, every comma-separated field a number, and exactly 46 fields. It also covers the error message each check shows, the field counter that enables the submit button, the severity table for a predicted label, and the confidence ladder.
- **Navigation bar**: which link is highlighted for a location, the mobile menu state, the scrolled flag and the bar's own dark switch.
- **Typing-effect hook**: one character per timer tick, then a completion flag.
- **Theme provider**: the initial mode chosen from the saved setting or the system preference. After mounting, the saved setting and the document's `dark` class stay in step with the mode.

Modules:

- `Wrappers`: the `Option` and `Result` types.
- `Numbers`: the shared `Min` helper.
- `Strings`: the JavaScript string operations used. These are lower-casing, `includes`, `startsWith`, `endsWith`, `trim`, `split` with its inverse `join`, and decimal rendering.
- `Lookup`: the first-match table search shared by the label decorators.
- `BatchPrediction`, `SinglePrediction`, `Navbar`, `TypingEffect` and `Theme`: one module per source file.

React state becomes the fields of a class, whose methods are the event handlers. An effect that a state change triggers is folded into the handler that makes the change. Pure helpers become functions, and each gets a lemma that states what it promises.

## Model

| member | source | states |
|---|---|---|
| Strings.TrimEmptyIffBlank | ids_frontend/src/pages/SinglePrediction/SinglePrediction.jsx:39-42 | `!features.trim()` holds exactly when every character is JavaScript whitespace |
| Strings.JoinSplit | ids_frontend/src/pages/SinglePrediction/SinglePrediction.jsx:49 | splitting at commas loses nothing: joining the fields back gives the input |
| Strings.SplitJoin | ids_frontend/src/pages/SinglePrediction/SinglePrediction.jsx:49 | splitting a join of comma-free fields gives exactly those fields back |
| Strings.Split | ids_frontend/src/pages/SinglePrediction/SinglePrediction.jsx:115 | `split(',')` gives one more piece than there are commas, none containing a comma |
| Strings.DecimalRoundTrip | ids_frontend/src/pages/SinglePrediction/SinglePrediction.jsx:58 | the count rendered in the error message reads back as the count |
| Strings.PrefixesComparable | ids_frontend_1/src/components/Navbar/Navbar.jsx:55 | two prefixes of one path are prefixes of each other |
| Lookup.FirstMatch | ids_frontend/src/pages/BatchPrediction/BatchPrediction.jsx:268-273 | the table walk returns the first entry whose key the label contains; it returns none exactly when no key matches |
| Lookup.FindAt | ids_frontend/src/pages/BatchPrediction/BatchPrediction.jsx:287-292 | an entry wins when it matches and every entry before it does not |
| BatchPrediction.IsValidCsv | ids_frontend/src/pages/BatchPrediction/BatchPrediction.jsx:99-101 | a file of type text/csv is always accepted; a file of another type whose name is shorter than ".csv" never is |
| BatchPrediction.CsvAcceptanceRule | ids_frontend/src/pages/BatchPrediction/BatchPrediction.jsx:99-101 | a file is accepted exactly when its type is text/csv or its name ends in ".csv" in any case |
| BatchPrediction.FailureText | ids_frontend/src/pages/BatchPrediction/BatchPrediction.jsx:162 | the server's message is shown when present and non-empty; an absent or empty one gives "Batch prediction failed"; never empty |
| BatchPrediction.RoundTo | ids_frontend/src/pages/BatchPrediction/BatchPrediction.jsx:139 | `toFixed(d)` moves the value by at most half a unit in the last kept place |
| BatchPrediction.ToDetailed | ids_frontend/src/pages/BatchPrediction/BatchPrediction.jsx:134-144 | one row per prediction, in order, numbered from 1 and labelled "Sample k"; the attack type equals the prediction; the confidence is the percentage to within 0.005 |
| BatchPrediction.DetectionRate | ids_frontend/src/pages/BatchPrediction/BatchPrediction.jsx:154 | the percentage of attacks to within 0.05; for a zero total, NaN for 0/0 and Infinity otherwise |
| BatchPrediction.NewEntry | ids_frontend/src/pages/BatchPrediction/BatchPrediction.jsx:147-155 | the entry records the file's name, the answer's three counts, the clock readings and the detection rate of its counts; for a non-empty batch the rate is a finite percentage between 0 and 100, up to rounding |
| BatchPrediction.PushHistory | ids_frontend/src/pages/BatchPrediction/BatchPrediction.jsx:157 | the new entry goes in front, followed by the older entries, at most ten in all |
| BatchPrediction.HistoryKeepsNewest | ids_frontend/src/pages/BatchPrediction/BatchPrediction.jsx:157-158 | after any run of successive, non-overlapping uploads the history is exactly the last ten, newest first |
| BatchPrediction.OverlapLosesEntry | ids_frontend/src/pages/BatchPrediction/BatchPrediction.jsx:157-158 | as written: two overlapping uploads that both push onto the history of the render that started them leave the first one's entry out of the final history |
| BatchPrediction.OverlapKeepsBoth | ids_frontend/src/pages/BatchPrediction/BatchPrediction.jsx:157-158 | pushing each answer onto the history current at the time gives the history of the two uploads made one after the other, newest first |
| BatchPrediction.ClearUndoneByAnswer | ids_frontend/src/pages/BatchPrediction/BatchPrediction.jsx:157-158 | as written: an answer that arrives after Clear History brings back the newest cleared entry behind its own; pushing onto the cleared history keeps only the new run |
| BatchPrediction.AttackColor | ids_frontend/src/pages/BatchPrediction/BatchPrediction.jsx:276-293 | the colour is that of the first key the label contains, ignoring case, or the "Other" grey when none does; so it always comes from the table; any label containing "ddos" in any case is red; it is the "Other" grey exactly when no earlier key matches |
| BatchPrediction.AttackIcon | ids_frontend/src/pages/BatchPrediction/BatchPrediction.jsx:257-274 | the icon is that of the first key the label contains, ignoring case, or the triangle when none does; so it always comes from the table; it is the triangle exactly when no key matches or "Malware" is the first match |
| BatchPrediction.ColorAndIconAgree | ids_frontend/src/pages/BatchPrediction/BatchPrediction.jsx:257-293 | the first five keys of both tables coincide, so both tables pick the same one of them |
| BatchPrediction.SeverityOf | ids_frontend/src/pages/BatchPrediction/BatchPrediction.jsx:845 | High exactly above 30 percent, Low exactly at 10 percent or below, Medium in between |
| BatchPrediction.SeverityMonotone | ids_frontend/src/pages/BatchPrediction/BatchPrediction.jsx:844-845 | a larger attack share never gets a lower severity |
| BatchPrediction.RateSeverity | ids_frontend/src/pages/BatchPrediction/BatchPrediction.jsx:955-956 | the history tone uses the same 30/10 thresholds; NaN reads as low and Infinity as high |
| BatchPrediction.FirstRangeFrom | ids_frontend/src/pages/BatchPrediction/BatchPrediction.jsx:328-333 | the first range from k on whose closed interval holds the confidence |
| BatchPrediction.BucketOf | ids_frontend/src/pages/BatchPrediction/BatchPrediction.jsx:328-333 | a confidence lies in at most one range; none exactly when no interval holds it |
| BatchPrediction.RangeColor | ids_frontend/src/pages/BatchPrediction/BatchPrediction.jsx:339-342 | each colour of the five-rung ladder holds exactly on its band of lower bounds: emerald from 90, green from 80, amber from 70, orange from 60, red below 60 |
| BatchPrediction.BucketTotal | ids_frontend/src/pages/BatchPrediction/BatchPrediction.jsx:327-334 | the five counts add up to the number of counted results, which is at most the number of results |
| BatchPrediction.ConfidenceDistribution | ids_frontend/src/pages/BatchPrediction/BatchPrediction.jsx:315-344 | no results give no bars; otherwise there are five bars in range order, each with its count and colour, and the counts add up to the counted results |
| BatchPrediction.RangeOf | ids_frontend/src/pages/BatchPrediction/BatchPrediction.jsx:328-333 | the inner loop stops at the first range holding the confidence |
| BatchPrediction.GapConfidenceUncounted | ids_frontend/src/pages/BatchPrediction/BatchPrediction.jsx:320-321 | a confidence of 89.5 is counted in no range |
| BatchPrediction.IntendedBucketOf | ids_frontend/src/pages/BatchPrediction/BatchPrediction.jsx:319-325 | contiguous ranges count every confidence in [0, 100] exactly once, agreeing with the written ranges wherever those count |
| BatchPrediction.AttackCount | ids_frontend/src/pages/BatchPrediction/BatchPrediction.jsx:357 | a chunk never has more attacks than results |
| BatchPrediction.NoAttacksIffAllNormal | ids_frontend/src/pages/BatchPrediction/BatchPrediction.jsx:357 | a chunk counts no attack exactly when every result in it is "Normal" |
| BatchPrediction.NormalCount | ids_frontend/src/pages/BatchPrediction/BatchPrediction.jsx:357-358 | the attack and normal filters split every chunk |
| BatchPrediction.GroupsLength | ids_frontend/src/pages/BatchPrediction/BatchPrediction.jsx:355 | there are ceil(n / size) groups: all but the last are full |
| BatchPrediction.GroupsTotal | ids_frontend/src/pages/BatchPrediction/BatchPrediction.jsx:356 | the group totals add up to the number of results grouped |
| BatchPrediction.GroupsPoints | ids_frontend/src/pages/BatchPrediction/BatchPrediction.jsx:355-366 | the groups are numbered consecutively, non-empty, split into attacks and normal traffic, and full except the last |
| BatchPrediction.GroupsSkip | ids_frontend/src/pages/BatchPrediction/BatchPrediction.jsx:355 | dropping j groups leaves the grouping from j * size on |
| BatchPrediction.GroupContents | ids_frontend/src/pages/BatchPrediction/BatchPrediction.jsx:356-365 | group j summarises exactly results j * size up to (j + 1) * size and is labelled "Batch j + 1" |
| BatchPrediction.AtMostTenGroups | ids_frontend/src/pages/BatchPrediction/BatchPrediction.jsx:354 | a size of ceil(n / 10) never needs more than ten groups |
| BatchPrediction.SeriesStep | ids_frontend/src/pages/BatchPrediction/BatchPrediction.jsx:356-365 | one loop turn moves one group from pending to done |
| BatchPrediction.TimeSeriesShape | ids_frontend/src/pages/BatchPrediction/BatchPrediction.jsx:346-369 | no results give no points; otherwise there are at most ten well-formed groups whose totals add up to min(100, n) |
| BatchPrediction.TimeSeries | ids_frontend/src/pages/BatchPrediction/BatchPrediction.jsx:346-369 | the loop builds exactly the grouping specified by the lemmas above |
| BatchPrediction.GroupInto | ids_frontend/src/pages/BatchPrediction/BatchPrediction.jsx:355-366 | stepping through the results `size` at a time yields every group in order |
| BatchPrediction.BatchPage.constructor | ids_frontend/src/pages/BatchPrediction/BatchPrediction.jsx:42-57 | the page starts empty, with any saved history loaded |
| BatchPrediction.BatchPage.Reset | ids_frontend/src/pages/BatchPrediction/BatchPrediction.jsx:85-93 | clears the file, stats, error and rows; keeps the history |
| BatchPrediction.BatchPage.ClearHistory | ids_frontend/src/pages/BatchPrediction/BatchPrediction.jsx:385-388 | empties the history |
| BatchPrediction.BatchPage.Upload | ids_frontend/src/pages/BatchPrediction/BatchPrediction.jsx:95-172 | a missing file changes nothing; a non-CSV file only sets the error; an answer records stats, rows and a history entry; a failure shows the message and drops the file; loading ends in every case |
| SinglePrediction.CountMessage | ids_frontend/src/pages/SinglePrediction/SinglePrediction.jsx:57-59 | the count message carries the count, readable back |
| SinglePrediction.NumbersOf | ids_frontend/src/pages/SinglePrediction/SinglePrediction.jsx:49-54 | the fields are read as numbers one by one; the result is none exactly when some field is NaN |
| SinglePrediction.Message | ids_frontend/src/pages/SinglePrediction/SinglePrediction.jsx:39-59 | blank input shows "Please enter feature values", a non-number field "Please enter valid numbers separated by commas", and the count refusal a message carrying the count, readable back; never empty |
| SinglePrediction.MessageInjective | ids_frontend/src/pages/SinglePrediction/SinglePrediction.jsx:40-58 | different refusals show different messages |
| SinglePrediction.Validate | ids_frontend/src/pages/SinglePrediction/SinglePrediction.jsx:38-61 | all-whitespace input is refused as blank; what passes holds exactly 46 numbers |
| SinglePrediction.CheckFields | ids_frontend/src/pages/SinglePrediction/SinglePrediction.jsx:49-59 | the field checks never report blank input; what passes came from exactly 46 fields |
| SinglePrediction.FieldOutcomes | ids_frontend/src/pages/SinglePrediction/SinglePrediction.jsx:49-59 | the NaN check comes before the count check; each refusal happens exactly when its check fails; what passes is the numbers read |
| SinglePrediction.BlankRefused | ids_frontend/src/pages/SinglePrediction/SinglePrediction.jsx:39-42 | the blank message appears exactly for all-whitespace input |
| SinglePrediction.NotNumbersRefused | ids_frontend/src/pages/SinglePrediction/SinglePrediction.jsx:52-54 | the "valid numbers" message appears exactly for non-blank input with a NaN field |
| SinglePrediction.CountRefusal | ids_frontend/src/pages/SinglePrediction/SinglePrediction.jsx:57-59 | a count refusal names commas + 1, which is not 46 |
| SinglePrediction.AcceptedExactly | ids_frontend/src/pages/SinglePrediction/SinglePrediction.jsx:38-61 | the request is made exactly for non-blank input of 46 numeric fields |
| SinglePrediction.AcceptedValues | ids_frontend/src/pages/SinglePrediction/SinglePrediction.jsx:49-61 | what is sent is the 46 field values, in order |
| SinglePrediction.FailureMessage | ids_frontend/src/pages/SinglePrediction/SinglePrediction.jsx:64 | the error's own message if non-empty, else "Prediction failed. Please try again."; never empty |
| SinglePrediction.FeatureCount | ids_frontend/src/pages/SinglePrediction/SinglePrediction.jsx:115 | the counter is 0 for empty input and commas + 1 otherwise |
| SinglePrediction.IsFeatureCountValid | ids_frontend/src/pages/SinglePrediction/SinglePrediction.jsx:115-116 | the count is valid exactly when the input holds 45 commas |
| SinglePrediction.SubmitEnabled | ids_frontend/src/pages/SinglePrediction/SinglePrediction.jsx:228 | the button is enabled exactly when not loading, the input is not blank and it holds 45 commas |
| SinglePrediction.EnabledPassesCount | ids_frontend/src/pages/SinglePrediction/SinglePrediction.jsx:228 | with the button enabled, only the NaN check can still refuse |
| SinglePrediction.AttackSeverity | ids_frontend/src/pages/SinglePrediction/SinglePrediction.jsx:87-105 | the style is that of the first key, in table order, occurring in the label as written; it is Unknown exactly when no key occurs |
| SinglePrediction.DDoSIsCritical | ids_frontend/src/pages/SinglePrediction/SinglePrediction.jsx:89 | a label containing "DDoS" is Critical, even though it also contains "DoS" |
| SinglePrediction.DoSIsHigh | ids_frontend/src/pages/SinglePrediction/SinglePrediction.jsx:90 | a DoS label without "DDoS" gets the High orange triangle |
| SinglePrediction.NoKeyIsUnknown | ids_frontend/src/pages/SinglePrediction/SinglePrediction.jsx:98-104 | matching is case-sensitive: a label with no key as written is Unknown |
| SinglePrediction.FormatConfidenceMonotone | ids_frontend/src/pages/SinglePrediction/SinglePrediction.jsx:107-113 | a higher confidence never gets a lower label |
| SinglePrediction.FormatConfidence | ids_frontend/src/pages/SinglePrediction/SinglePrediction.jsx:107-113 | each label holds exactly on its interval between consecutive thresholds |
| SinglePrediction.SinglePage.constructor | ids_frontend/src/pages/SinglePrediction/SinglePrediction.jsx:23-27 | empty input, no prediction, not loading, no error |
| SinglePrediction.SinglePage.Edit | ids_frontend/src/pages/SinglePrediction/SinglePrediction.jsx:191 | the input takes the typed text |
| SinglePrediction.SinglePage.HandlePredict | ids_frontend/src/pages/SinglePrediction/SinglePrediction.jsx:38-68 | blank input only sets the error; otherwise a request is made exactly when validation passes; a refusal shows its message; the answer or the failure is recorded; loading ends |
| SinglePrediction.SinglePage.Reset | ids_frontend/src/pages/SinglePrediction/SinglePrediction.jsx:70-74 | clears the input, the prediction and the error |
| SinglePrediction.SinglePage.LoadExample | ids_frontend/src/pages/SinglePrediction/SinglePrediction.jsx:76-80 | loads the sample and clears the prediction and the error |
| Navbar.IsActive | ids_frontend_1/src/components/Navbar/Navbar.jsx:51-56 | an active link's path is no longer than the location, and any link other than home is a prefix of it |
| Navbar.ActiveAtOwnPath | ids_frontend_1/src/components/Navbar/Navbar.jsx:51-56 | the home link is active only at "/"; a link is active at its own path and under it |
| Navbar.NavPathsPrefixFree | ids_frontend_1/src/components/Navbar/Navbar.jsx:28-36 | no link target other than "/" is a prefix of another |
| Navbar.AtMostOneActive | ids_frontend_1/src/components/Navbar/Navbar.jsx:51-56 | wherever the user is, at most one link is highlighted |
| Navbar.NavbarState.constructor | ids_frontend_1/src/components/Navbar/Navbar.jsx:23-25 | menu closed, not scrolled, light |
| Navbar.NavbarState.ToggleTheme | ids_frontend_1/src/components/Navbar/Navbar.jsx:58-66 | the mode flips and the document class follows it |
| Navbar.NavbarState.OnScroll | ids_frontend_1/src/components/Navbar/Navbar.jsx:38-45 | scrolled exactly beyond 10 pixels, fractional offsets included |
| Navbar.NavbarState.OnLocationChange | ids_frontend_1/src/components/Navbar/Navbar.jsx:47-49 | navigation closes the menu |
| Navbar.NavbarState.OpenMenu | ids_frontend_1/src/components/Navbar/Navbar.jsx:117 | opens the menu |
| Navbar.NavbarState.ToggleMenu | ids_frontend_1/src/components/Navbar/Navbar.jsx:144 | flips the menu |
| Navbar.NavbarState.CloseMenu | ids_frontend_1/src/components/Navbar/Navbar.jsx:163 | closes the menu |
| Navbar.ToggleTwice | ids_frontend_1/src/components/Navbar/Navbar.jsx:58-66 | two toggles restore the mode and leave the class in step |
| TypingEffect.Step | ids_frontend_1/src/hooks/useTypingEffect.js:10-19 | the shown text only grows, by at most one character; a tick changes nothing exactly when the text is all shown and the completion flag is set |
| TypingEffect.Run | ids_frontend_1/src/hooks/useTypingEffect.js:9-19 | every state reached from the start is consistent: a prefix of the text, complete only at the end |
| TypingEffect.StepConsistent | ids_frontend_1/src/hooks/useTypingEffect.js:9-19 | a tick keeps the state consistent (the shown text a prefix of the text) and, while characters remain, shows one more and advances the index |
| TypingEffect.RunShape | ids_frontend_1/src/hooks/useTypingEffect.js:9-19 | after n ticks the first min(n, length) characters are shown; the effect is complete exactly when n exceeds the length |
| TypingEffect.CompleteIsFinal | ids_frontend_1/src/hooks/useTypingEffect.js:15 | once complete, nothing changes any more |
| TypingEffect.TypingHook.constructor | ids_frontend_1/src/hooks/useTypingEffect.js:4-6 | starts empty, at index 0, not complete |
| TypingEffect.TypingHook.Tick | ids_frontend_1/src/hooks/useTypingEffect.js:10-19 | a firing timer performs one step and keeps the state consistent |
| TypingEffect.TypingHook.Reset | ids_frontend_1/src/hooks/useTypingEffect.js:28-32 | back to the start state |
| Theme.ThemeName | ids_frontend_1/src/theme.js:56 | the name is "dark" exactly in dark mode, "light" otherwise |
| Theme.InitialDark | ids_frontend_1/src/theme.js:19-28 | a saved "dark" wins; any other saved non-empty value means light; with nothing saved, the system preference decides |
| Theme.SavedThemeRestored | ids_frontend_1/src/theme.js:23-34 | saving a mode and loading it again restores it, whatever the system prefers |
| Theme.ThemeProvider.constructor | ids_frontend_1/src/theme.js:15-16 | light, not mounted |
| Theme.ThemeProvider.Theme | ids_frontend_1/src/theme.js:56 | the published name matches the mode |
| Theme.ThemeProvider.Sync | ids_frontend_1/src/theme.js:31-40 | once mounted, it saves the name and sets or removes the class; before mounting, it does nothing |
| Theme.ThemeProvider.Mount | ids_frontend_1/src/theme.js:19-28 | picks the initial mode, then the saved setting and the class agree with it |
| Theme.ThemeProvider.ToggleTheme | ids_frontend_1/src/theme.js:43-45 | flips the mode and keeps storage and class in step; before mounting, storage and class are untouched |
| Theme.ThemeProvider.SetTheme | ids_frontend_1/src/theme.js:48-50 | dark exactly for "dark"; with no change of mode, or before mounting, storage and class are untouched |
| Theme.MountFresh | ids_frontend_1/src/theme.js:14-28 | a new provider, once mounted, is in the mode the saved setting and preference select |
| Theme.ToggleTwice | ids_frontend_1/src/theme.js:43-45 | two toggles restore the mode, the saved setting and the class, mounted or not |

## Left out

- The backend and the prediction service. The service's answer, or the error it throws, is a parameter of the handler that awaits it (`ServiceOutcome`, `Reply`).
- JavaScript's `Number` on a field is the parameter `number`, where none stands for NaN. Its own rules are not modelled; for example, a blank field reads as 0.
- Lower-casing maps only the ASCII letters A-Z. Full Unicode case mapping is not modelled.
- Confidences and percentages are exact reals, and `toFixed` is rounding halves away from zero on them. Binary floating point is not modelled.
- BatchPrediction.RoundTo: states only the half-unit bound, not that the result is a whole number of hundredths (or tenths).
- The clock strings of a history entry and the rows' ISO timestamps are parameters or left out. The progress bar and its timers are left out of the page state. The upload's progress interval is cleared only when an answer arrives, so after a failure it can keep ticking past the `finally` reset. While loading, the page's own loading interval also moves the value.
- Local storage of the batch history is reduced to the saved value handed to the page constructor. The effect that saves the history on change is not modelled.
- Browser objects are reduced to fields or parameters: the document's `dark` class, `window.scrollY`, `matchMedia`, and the file input element.
- Not modelled: chart rendering and the other data shaping for charts (`prepareAttackDistributionData`, `prepareTrafficOverviewData`), the CSV download, `formatNumber`, and the copy-to-clipboard button with its `copied` flag. They only format data for display or act on the browser.
- BatchPrediction.BatchPage.Upload: handles one request at a time. The drop zone does not check `loading`, so a second upload can start while one is pending; what that does to the history is shown under Findings, and that the first request's timer then ends `loading` while the second is still pending is not modelled. Clear History is not disabled while loading either: a clear during a pending upload is undone when the answer pushes its entry onto the captured history (`ClearUndoneByAnswer`).
- SinglePrediction.SinglePage.HandlePredict: the request completes inside the call. In the page, Reset All, Load Example, the clear button and the text area stay enabled while a request is pending, and only the submit button is disabled. A late answer then still sets the prediction or the error, so after Reset All the page can show a prediction for input that is gone. That interleaving is not modelled.
- The typing hook indexes the text by Unicode code points, whereas JavaScript's `length` and indexing count UTF-16 code units. For a text with characters outside the Basic Multilingual Plane the source shows half a surrogate pair at a time and takes more ticks to complete.
- The sample features are kept as a constant. That the sample has 46 fields is not proved.
- The time series takes the first hundred results, as the code does, although its comment speaks of the last hundred.
- The typing hook's text is fixed for the life of a hook. Changing the text while it types is not modelled, and neither are the timer delays.
- `useTheme`'s error when used outside the provider is left out, because it concerns React's context mechanism.

## Findings

| source | as written | input that shows it | evidently intended | confidence | as-written member | corrected member |
|---|---|---|---|---|---|---|
| ids_frontend/src/pages/BatchPrediction/BatchPrediction.jsx:319-325 | closed ranges [90,100], [80,89], [70,79], [60,69], [0,59] leave gaps between 89 and 90, 79 and 80, and so on | a confidence of 89.5 (e.g. 0.895 from the service) is counted in no bar | contiguous ranges that count every confidence in [0, 100] once | not executed | BatchPrediction.GapConfidenceUncounted | BatchPrediction.IntendedBucketOf |
| ids_frontend/src/pages/BatchPrediction/BatchPrediction.jsx:157-158 | each handler pushes its entry onto `predictionHistory` as captured by the render that created it | a file dropped while another upload is pending (the drop zone does not check `loading`): when both answer, the second write replaces the first and the first run's entry is lost; likewise Clear History during a pending upload is undone by the answer | push each entry onto the current history (a functional state update), so both runs are kept | not executed | BatchPrediction.OverlapLosesEntry | BatchPrediction.OverlapKeepsBoth |
