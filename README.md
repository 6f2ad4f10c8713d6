# pc-Newest: a verified model of the PC-builder front end

This project models the logic in the React front end of the pc-Newest PC-building site.
The front end has no back end: every "AI" answer is a fixed table or a keyword match.
The model covers seven components.

- **App** (`app.dfy`). The build generator `generateBuilds` turns the wizard's form into three
  build tiers. The tiers are AI Recommended, Value Champion and Future Beast. Their parts, prices
  and benchmarks follow budget brackets, the use case, the RGB flag and the storage choice.
  The App state holds `builds` and `isGenerating`, with the 3000 ms timer made explicit.
- **ComparisonPage** (`comparison_page.dfy`). It holds three sample builds and a selection of
  two or three of them. It also computes the best and worst score per benchmark, the colour of
  each score, and the per-type component rows of the detailed view.
- **PCBuilder** (`pc_builder.dfy`). The five-step wizard covers step navigation, the form every
  control edits, the progress bar, the summary labels and the submit button.
- **ChatBot** (`chat_bot.dfy`).
  - The keyword classifier runs over the lower-cased message.
  - Each category has its canned replies.
  - A message is sent from the input or from a suggestion.
  - The conversation invariant is kept while replies are pending on timers of random length.
- **PriceTracker** (`price_tracker.dfy`). Three tracked components are filtered by a
  case-insensitive search term and a category. Each shows a trend figure, and one can be selected.
- **PCBuilderForm** (`pc_builder_form.dfy`). The single-page form has a budget typed as text, two
  drop-downs and ten preference toggles. Submitting makes a budget range check.
- **BuildResult** (`build_result.dfy`). The tab icons and badges, the liked-builds set, the
  tab selection through `toString`/`parseInt`, and the per-component "Show Alternatives" flags.

Three shared modules model the JavaScript primitives these components use.

- `text.dfy` covers `includes`, `toLowerCase`, `trim`, `replace` of one character,
  `Number.prototype.toString` and `parseInt`.
- `sequences.dfy` covers `filter`, subsequences and removal.
- `options.dfy` defines `Option`.

React state becomes a class per component. Its fields are the `useState` variables and its
methods are the event handlers; each method states its whole new state. Every handler requires
the component's `Valid()` invariant and keeps it. The derived values the components compute during render are functions
with the properties proved about them. Timers become explicit "fires" methods. Random draws
become parameters ranging over the values the expressions can produce.

Numeric conventions:

- Ratings and percentages with one decimal (4.8, -5.2) are held as integer tenths.
- The storage-capacity slider is held as a count of half terabytes.
- Slider values, which the source keeps in one-element arrays, are held as the single number.

## Model

| member | source | states |
|---|---|---|
| App.ThreeTiersInOrder | App.tsx:66-307 | exactly three builds, ids "1","2","3" named AI Recommended, Value Champion, Future Beast; five parts in tier 1 and two in tiers 2 and 3, each list opening with the CPU then the GPU |
| App.TierTotals | App.tsx:72 | tier 1 costs the budget, tiers 2 and 3 `Math.round` of 0.8 and 1.2 times it (stated against real arithmetic); for a non-negative budget tier 2 <= tier 1 <= tier 3 |
| App.AiCpuPriceBrackets | App.tsx:87-118 | tier-1 CPU costs 699 above 2500, 549 above 1500, 399 otherwise; the cut-offs are strict |
| App.AiCpuPriceMonotone | App.tsx:87-118 | a larger budget never gets a cheaper tier-1 CPU |
| App.AiCpuNameMatchesPrice | App.tsx:87-118 | two budgets get the same CPU name exactly when they get the same CPU price |
| App.AiGpuPriceBrackets | App.tsx:119-153 | tier-1 GPU costs 1599 above 3000, 999 above 2000, 599 above 1200, 499 otherwise |
| App.AiGpuPriceMonotone | App.tsx:119-153 | a larger budget never gets a cheaper tier-1 GPU |
| App.AiGpuSpecsByBudgetAbove2000 | App.tsx:119-153 | two budgets get the same GPU specs exactly when both or neither exceed 2000 |
| App.RamAndBoardBrackets | App.tsx:154-168 | above a 2000 budget the 32GB kit at 299 and the X670E board at 349, otherwise the 16GB kit at 149 and the B650 board at 199 |
| App.RamSpecsOnlyByRgb | App.tsx:154-168 | two forms get the same RAM specs exactly when their RGB preferences agree |
| App.StorageLabelAndPrice | App.tsx:169-187 | the drive is labelled NVMe exactly when the storage type includes "nvme"; price is the capacity in TB times 120 or 80 |
| App.StoragePriceOrder | App.tsx:169-187 | more capacity never costs less; any storage type that includes "nvme" costs strictly more than any that does not at a non-zero capacity |
| App.CapacityTextSamples | App.tsx:171 | the capacity is shown as JavaScript prints `halfTB / 2`: 0.5, 1, 1.5 and 8 TB read "0.5", "1", "1.5" and "8" |
| App.CapacityTextPoint | App.tsx:171 | the capacity text has a decimal point (before a final digit) exactly for an odd count of half terabytes, and the whole terabytes are printed before it |
| App.CapacityTextInjective | App.tsx:171 | different capacities are shown as different texts |
| App.BenchmarksByUseCase | App.tsx:79-85 | tier-1 gaming/productivity/rendering scores are 95/95/92 exactly for gaming/productivity/streaming use and 85/80/78 otherwise; tiers 2 and 3 fixed |
| App.ValueChampionParts | App.tsx:203-256 | tier-2 CPU and GPU cost 329 and 549 above a 1500 budget, 279 and 449 otherwise |
| App.FutureBeastPartsFixed | App.tsx:257-306 | tier-3 parts do not depend on the form; they cost 799 and 1599 |
| App.OnlyFiveFieldsMatter | App.tsx:15-25 | forms agreeing on budget, use case, RGB flag, storage type and capacity generate identical builds |
| App.AppState.constructor | App.tsx:57-58 | no builds and not generating at start |
| App.AppState.GenerateBuilds | App.tsx:61-65 | raises `isGenerating` and schedules one timer for this form; builds unchanged |
| App.AppState.TimerFires | App.tsx:309-311 | the oldest timer replaces `builds` with the three tiers of its form and clears `isGenerating` |
| ComparisonPage.SampleIds | components/ComparisonPage.tsx:38-138 | the id list of the sample builds (`Ids`, one id per build in order) is "1","2","3", all distinct |
| ComparisonPage.ToggledKeepsSelectionValid | components/ComparisonPage.tsx:193-201 | a click keeps 2..3 distinct valid ids; a selected id leaves only from three, an unselected id is appended only to two; otherwise nothing changes |
| ComparisonPage.CompareOrderIndependent | components/ComparisonPage.tsx:144 | selections with the same ids compare the same builds, in table order |
| ComparisonPage.SelectedCount | components/ComparisonPage.tsx:144 | filtering builds with distinct ids by a list of distinct present ids yields one build per id |
| ComparisonPage.ValidSelectionComparesAll | components/ComparisonPage.tsx:225 | a valid selection compares as many builds as it holds ids, at least two, so the comparison is always shown |
| ComparisonPage.MaxOf | components/ComparisonPage.tsx:146-148 | `Math.max`: defined exactly for a non-empty list, a member of it and no smaller than any entry |
| ComparisonPage.MinOf | components/ComparisonPage.tsx:150-152 | `Math.min`: defined exactly for a non-empty list, a member of it and no larger than any entry |
| ComparisonPage.ScoreBounds | components/ComparisonPage.tsx:146-152 | over non-empty builds the `Math.max` and `Math.min` of their scores for a metric (`MetricScores`) exist, each is some build's score, and every score lies between them |
| ComparisonPage.BestAndWorstBound | components/ComparisonPage.tsx:146-152 | the same for the builds of any valid selection |
| ComparisonPage.ShadeMeaning | components/ComparisonPage.tsx:267-271 | green iff the score is a maximum; red iff a minimum that some score exceeds; grey iff strictly between two scores |
| ComparisonPage.AllTiedAllGreen | components/ComparisonPage.tsx:267-271 | when all scores tie every score is green |
| ComparisonPage.FirstOfType | components/ComparisonPage.tsx:363-367 | `find`: none iff no part has the type, otherwise the first part of that type |
| ComparisonPage.DetailCellsFilled | components/ComparisonPage.tsx:363-367 | in the CPU and GPU rows (`DetailRow`, the `find` result for each compared build) every cell holds a part |
| ComparisonPage.Comparison.constructor | components/ComparisonPage.tsx:141-142 | builds "1" and "2" selected, overview mode |
| ComparisonPage.Comparison.Click | components/ComparisonPage.tsx:193-201 | the selection becomes the toggled selection and stays valid; mode unchanged |
| ComparisonPage.Comparison.SetMode | components/ComparisonPage.tsx:231 | sets the mode; selection unchanged and still valid |
| PCBuilder.EditsKeepFormValid | components/PCBuilder.tsx:34-44 | the opening form is one the controls allow, and every control's value keeps it so |
| PCBuilder.EditsCommuteOrOverwrite | components/PCBuilder.tsx:136 | edits of different fields commute; a later edit of the same field overwrites |
| PCBuilder.Progress | components/PCBuilder.tsx:107 | progress is 20 percent per step reached, and 100 exactly on the last step |
| PCBuilder.SummaryLabel | components/PCBuilder.tsx:357-360 | the summary label has the value's length |
| PCBuilder.SummaryClearsSingleHyphen | components/PCBuilder.tsx:357-360 | a value with at most one hyphen is shown with none, every other character kept |
| PCBuilder.OfferedLabelsHaveNoHyphen | components/PCBuilder.tsx:357-360 | every form-factor, use-case and storage value a control offers has at most one hyphen, so its summary label shows none |
| PCBuilder.OfferedStorageNvme | components/PCBuilder.tsx:296-299 | of the values the storage control holds, only "nvme-only" selects the NVMe drive |
| PCBuilder.Wizard.constructor | components/PCBuilder.tsx:33-44 | step 0 and the default form (budget 1500, 1 TB, nothing chosen) |
| PCBuilder.Wizard.NextStep | components/PCBuilder.tsx:95-99 | one step forward unless on the last, form unchanged; as written, the click also hands the form over exactly when it leaves the Storage step while not generating |
| PCBuilder.NextOnStorageStepSubmits | components/PCBuilder.tsx:417-430 | a click on "Next" at the Storage step submits the form as written, and would not with keyed buttons |
| PCBuilder.ClickSubmitsAsWrittenMeaning | components/PCBuilder.tsx:417-430 | as written, a click on the slot's button submits exactly on the last two steps while not generating |
| PCBuilder.KeyedSubmitsOnlyFromLastStep | components/PCBuilder.tsx:417-430 | with keyed buttons a click submits exactly on the last step while not generating |
| PCBuilder.Wizard.PrevStep | components/PCBuilder.tsx:101-105 | one step back unless on the first; form unchanged |
| PCBuilder.Wizard.Change | components/PCBuilder.tsx:136-345 | the form becomes the edited form and stays valid; step unchanged |
| PCBuilder.Wizard.PressSubmit | components/PCBuilder.tsx:417-429 | a press of the submit button, shown only on the last step, hands the form over unchanged exactly when not generating |
| ChatBot.Replies | components/ChatBot.tsx:39-60 | three canned replies per category |
| ChatBot.ClassifyIgnoresCase | components/ChatBot.tsx:92 | the category does not depend on letter case |
| ChatBot.ClassifyMonotone | components/ChatBot.tsx:93-116 | adding text around a message never lowers its category in the chain gaming > budget > technical > greeting |
| ChatBot.Welcome | components/ChatBot.tsx:64-74 | the opening message is a greeting reply from the bot with the first three suggestions |
| ChatBot.BotReply | components/ChatBot.tsx:118-133 | the reply is from the message's category, a bot message with a slice of 1..5 quick suggestions |
| ChatBot.OutgoingText | components/ChatBot.tsx:137-139 | a non-empty suggestion is sent as is; otherwise the trimmed input, and nothing exactly when that is empty |
| ChatBot.BlankInputSendsNothing | components/ChatBot.tsx:137-139 | without a suggestion nothing is sent exactly when the input is all white space |
| ChatBot.SendKeepsValid | components/ChatBot.tsx:141-152 | appending a user message and its pending reply keeps the conversation invariant |
| ChatBot.ReplyKeepsValid | components/ChatBot.tsx:153-160 | appending a reply for any pending message keeps the invariant |
| ChatBot.Chat.constructor | components/ChatBot.tsx:63-76 | closed, only the welcome message, empty input, not typing, nothing pending |
| ChatBot.Chat.Open | components/ChatBot.tsx:183 | opens the window; nothing else changes and the invariant holds |
| ChatBot.Chat.Close | components/ChatBot.tsx:227 | closes the window; nothing else changes and the invariant holds |
| ChatBot.Chat.SetInput | components/ChatBot.tsx:355-357 | the input takes the typed value; nothing else changes and the invariant holds |
| ChatBot.Chat.SendMessage | components/ChatBot.tsx:137-161 | nothing changes when there is nothing to send; else the user message is appended, the input cleared, typing on, one reply pending |
| ChatBot.Chat.ReplyArrives | components/ChatBot.tsx:153-160 | the reply to the chosen pending message is appended, it leaves the queue, typing off; the invariant holds |
| ChatBot.SendButtonSendsTrimmedInput | components/ChatBot.tsx:370-373 | with the send button enabled, pressing it sends the trimmed input |
| PriceTracker.PriceTableConsistent | components/PriceTrackerPage.tsx:33-91 | each history ends at the current price and stays within lowest..highest; ids distinct |
| PriceTracker.Filtered | components/PriceTrackerPage.tsx:111-115 | the list keeps table order and holds exactly the components matching search and category |
| PriceTracker.NoFilterShowsAll | components/PriceTrackerPage.tsx:106-115 | empty search with "all" lists every component |
| PriceTracker.SearchIgnoresCase | components/PriceTrackerPage.tsx:112 | the search term's case does not matter |
| PriceTracker.LongerSearchNarrows | components/PriceTrackerPage.tsx:112 | extending the search term never lists more |
| PriceTracker.UnusedCategoriesEmpty | components/PriceTrackerPage.tsx:117 | the "storage" and "motherboard" filters list nothing |
| PriceTracker.TrendOf | components/PriceTrackerPage.tsx:233-240 | up arrow exactly for a positive change; the arrow and the figure together give the change back |
| PriceTracker.Tracker.constructor | components/PriceTrackerPage.tsx:106-109 | components tab, empty search, "all", nothing selected |
| PriceTracker.Tracker.SetTab | components/PriceTrackerPage.tsx:143 | sets the tab; nothing else changes and the invariant holds |
| PriceTracker.Tracker.SetSearch | components/PriceTrackerPage.tsx:175 | sets the search term; nothing else changes |
| PriceTracker.Tracker.SetCategory | components/PriceTrackerPage.tsx:179 | sets an offered category; nothing else changes |
| PriceTracker.Tracker.Select | components/PriceTrackerPage.tsx:204 | selects a listed card; nothing else changes |
| PriceTracker.Tracker.HighlightIsSelection | components/PriceTrackerPage.tsx:207 | a component is highlighted exactly when it is the selected one |
| PCBuilderForm.PrefKeysComplete | app/components/PCBuilderForm.tsx:12-23 | every preference has a toggle and a key, and all start off |
| PCBuilderForm.Flip | app/components/PCBuilderForm.tsx:27-32 | negates one preference, keeps the keys and every other preference |
| PCBuilderForm.FlipInvolutiveAndCommutative | app/components/PCBuilderForm.tsx:27-32 | two presses cancel; presses of different toggles commute |
| PCBuilderForm.EmptyBudgetAccepted | app/components/PCBuilderForm.tsx:38-42 | the empty budget parses to NaN and passes the range check |
| PCBuilderForm.BudgetInRangeMeaning | app/components/PCBuilderForm.tsx:38-42 | the intended check accepts exactly the texts reading as 350..10000, agrees with the handler there, refuses the empty field |
| PCBuilderForm.TypedBudgetRange | app/components/PCBuilderForm.tsx:38-42 | for a budget typed as a number both checks are the range 350..10000 |
| PCBuilderForm.Form.constructor | app/components/PCBuilderForm.tsx:10-25 | budget "2500", "Video Editing", "United States", all preferences off, no requirements |
| PCBuilderForm.Form.SetBudget | app/components/PCBuilderForm.tsx:77 | sets the budget text; nothing else changes |
| PCBuilderForm.Form.SetPrimaryUse | app/components/PCBuilderForm.tsx:94-101 | sets an offered use; nothing else changes |
| PCBuilderForm.Form.SetRegion | app/components/PCBuilderForm.tsx:113-118 | sets an offered region; nothing else changes |
| PCBuilderForm.Form.TogglePreference | app/components/PCBuilderForm.tsx:144 | flips one preference; nothing else changes |
| PCBuilderForm.Form.SetRequirements | app/components/PCBuilderForm.tsx:164-165 | sets the free text; nothing else changes |
| PCBuilderForm.Form.Submit | app/components/PCBuilderForm.tsx:34-51 | alert and nothing sent exactly when the handler's check fails; otherwise the form's values sent unchanged |
| BuildResult.IconsAndBadgesAgree | components/BuildResult.tsx:58-74 | star icon iff "Alternative" badge iff index >= 3; the first three tabs have distinct icons and badges |
| BuildResult.GeneratedBuildsBadges | components/BuildResult.tsx:67-74 | the three generated builds never get the "Alternative" badge |
| BuildResult.ToggledLike | components/BuildResult.tsx:48-56 | the build's like flips, every other like kept |
| BuildResult.ToggledLikeInvolutive | components/BuildResult.tsx:48-56 | liking twice restores the set |
| BuildResult.LastIndexOf | components/BuildResult.tsx:273 | an index of the character with no occurrence after it, or -1 exactly when the character does not occur (used to read a key back) |
| BuildResult.LastIndexOfSeparator | components/BuildResult.tsx:273 | after a separator followed only by digits, the last separator is that one |
| BuildResult.AlternativeKeyInjective | components/BuildResult.tsx:273 | the key `${build.id}-${componentIndex}` determines the build id and the index |
| BuildResult.ResultView.constructor | components/BuildResult.tsx:42-44 | first tab, nothing liked, no alternatives shown |
| BuildResult.ResultView.SelectionShown | components/BuildResult.tsx:46-119 | whenever the tabs are rendered the selected tab is one of them |
| BuildResult.ResultView.NewBuilds | App.tsx:372 | a new `builds` prop replaces the builds and keeps the selected tab, the likes and the alternative flags, since the component stays mounted |
| BuildResult.ResultView.SelectTab | components/BuildResult.tsx:102-107 | the tab's value parsed back selects exactly that tab's index; the rest is kept |
| BuildResult.ResultView.ToggleLike | components/BuildResult.tsx:167-170 | the like set becomes the toggled set; the rest is kept |
| BuildResult.ResultView.ToggleAlternatives | components/BuildResult.tsx:271-274 | only the pressed component's flag flips; every other component's flag is kept |
| Text.ContainsIffOccurs | components/PriceTrackerPage.tsx:112 | `includes` holds exactly when the term occurs at some position |
| Text.ContainsTransitive | components/PriceTrackerPage.tsx:112 | a term found in a text found in another is found there |
| Text.ToLowerIdempotent | components/ChatBot.tsx:92 | lower-casing twice is lower-casing once |
| Text.TrimEmptyIff | components/ChatBot.tsx:138 | `trim` gives the empty text exactly for all-white-space input |
| Text.ReplaceFirstSpec | components/PCBuilder.tsx:357-360 | `replace` of a character changes exactly its first occurrence, and nothing when absent |
| Text.ParseIntOfNatToString | components/BuildResult.tsx:102-107 | `parseInt` of a number's decimal text gives the number back |
| Text.NatToStringInjective | components/BuildResult.tsx:273 | different numbers have different decimal texts |
| Sequences.FilterIsSubsequence | components/ComparisonPage.tsx:144 | `filter` keeps a subsequence of its input |
| Sequences.WithoutMember | components/ComparisonPage.tsx:196 | removing an id drops exactly that id and keeps the rest distinct |

## Left out

- Rendering, styling, icons, images, animations and the scrolling effect of the chat are not modelled; only the state and the values the markup shows are.
- The page switch `currentPage` of App and the pages it routes to other than the ones above (home page, About page, header, footer, BuildRecommendations) are not part of this model.
- `Date.now()` ids and `new Date()` time stamps of chat messages are left out; they do not influence any decision.
- `Math.random()` draws are parameters ranging over what `Math.floor(Math.random() * 3)` and the slice bounds can produce; the random 1000–3000 ms reply delay is modelled by letting any pending reply arrive next.
- Timers are explicit "fires" methods: App's equal 3000 ms delays fire in scheduling order, the chat's random delays in any order. The browser's event loop and timer cancellation on unmount are not modelled.
- `toLowerCase` is modelled for ASCII letters only; all strings in the tables are ASCII.
- `parseInt` is modelled for optional leading white space, an optional sign and decimal digits; the `0x` prefix and other radixes are not modelled, since no input in these forms reaches them for the texts the controls produce.
- Floating-point arithmetic is not modelled: ratings and percentage changes are integer tenths, the TB capacity is a count of half terabytes, and progress and `Math.round(budget * 0.8)` are computed in exact real arithmetic, so binary floating-point rounding is not modelled.
- PCBuilder.Wizard.NextStep follows the code as written, including the submission from the Storage step. The corrected rule with keyed buttons is stated on values (PCBuilder.ClickSubmitsKeyed); there is no separate keyed wizard class. React's reconciliation and the button's activation behaviour are reduced to one fact: the re-render commits before the click's default action.
- The browser's constraint validation of the number input (`min`, `max`, `step`) is not modelled; PCBuilderForm.Form.Submit follows the handler's own check.
- The `|| botResponses.greeting` fallback in `generateBotResponse` is unreachable (every category exists) and is not modelled separately.
- The price history chart of PriceTracker (`buildPriceHistory` and the chart it feeds) and the low/high labels are display only and are left out; only the selected component is modelled.
- BuildResult's `showAlternatives` flags are modelled, but the source never reads them for display, so no alternatives list exists to model.
- The alert text of the form check is not modelled; only whether an alert is raised.
- ChatBot.ValidChat does not state that bot texts are canned replies; ChatBot.Welcome and ChatBot.BotReply state it for each message created, and keeping it out of the class invariant keeps the proofs small.

## Findings

| source | as written | input that shows it | evidently intended | confidence | as-written member | corrected member |
|---|---|---|---|---|---|---|
| app/components/PCBuilderForm.tsx:38-42 | `parseInt(budget)` gives `NaN` for a budget without leading digits, both comparisons with `NaN` are false, so the range check passes and the form is sent | the budget field emptied (`""`) | a budget that does not read as a number from 350 to 10000 is refused | not executed | PCBuilderForm.EmptyBudgetAccepted (check PCBuilderForm.BudgetAccepted) | PCBuilderForm.BudgetInRangeMeaning (check PCBuilderForm.BudgetInRange) |
| components/PCBuilder.tsx:417-430 | "Next" and the submit button are the two branches of one ternary with the same element type and no `key`, so React reuses one `<button>`; the click handler's re-render makes it `type="submit"` before the click's default action runs | a click on "Next" on the Storage step (index 3) while not generating: the form is submitted and the Final Details step is never shown | "Next" only advances; the form is submitted only from the last step | not executed | PCBuilder.NextOnStorageStepSubmits (PCBuilder.ClickSubmitsAsWritten, PCBuilder.Wizard.NextStep) | PCBuilder.KeyedSubmitsOnlyFromLastStep (PCBuilder.ClickSubmitsKeyed) |
