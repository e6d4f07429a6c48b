# LLM-Agents-for-Search, modelled in Dafny

LLM-Agents-for-Search collects four web-shopping and question-answering agents. Each is built
on a LangGraph state machine whose nodes call a language model, and this project models the
logic around those calls:

- **InferenceTimeTreeSearch** (`tree_search.dfy`, `tree_search_replay.dfy`): a best-first search
  over WebShop states. A frontier keeps scored states. An LLM proposes actions by majority vote
  over samples and scores states by self-consistency. A goal test matches title keywords and a
  price limit. A replay logger records sessions and analyses them.
- **LASER** (`laser_parsing.dfy`, `laser_tools.dfy`, `laser_memory.dfy`, `laser_feedback.dfy`,
  `laser_nodes.dfy`, `laser_graph.dfy`, `laser_replay.dfy`): a state-space agent (search, result
  and item spaces). It parses WebShop observations, dispatches tool calls, keeps a memory buffer
  of visited items and a rethink log, routes between spaces, and replays recorded demonstrations
  offline.
- **KnowAgent** (`knowagent_tools.dfy`, `knowagent_prompt.dfy`, `knowagent_nodes.dfy`,
  `knowagent_graph.dfy`): a HotpotQA agent. An action-knowledge graph says which action may follow
  which. The agent builds each stage's prompt (ActionPath, Thought, Action) within a token budget,
  and parses `Search[...]`, `Lookup[...]` and `Finish[...]` calls.
- **AgentQ** (`agentq_commands.dfy`, `agentq_blocks.dfy`, `agentq_state.dfy`,
  `agentq_prompt.dfy`, `agentq_nodes.dfy`, `agentq_agent.dfy`): a browser agent. It reads
  STATUS/COMMANDS blocks from the model's reply, parses each command line, keeps a LangGraph state
  with a scratchpad, and runs a plan, thought, action, explanation and critique loop.

The shared modules are `wrappers.dfy` (Option and Result), `text.dfy` (string matching,
splitting, Python's whitespace and line-break sets), `seqs.dfy` (dedup, a stable sort by key,
counting) and `json.dfy` (the JSON values a Python dictionary holds).

The language model, the browser, WebShop's HTTP server, the Wikipedia API and the clock are
parameters. A response string or a function-typed argument stands for each call.

Source objects updated in place are classes: the frontier, the replay logger, the memory buffer,
the rethink log, the offline environment, AgentQ's graph state and agent state. Their methods
are proved against specification functions of the old state. The parsers, prompt builders and
routers are pure functions, each partnered with lemmas (round trips, invariants and reference
definitions).

## Model

| member | source | states |
|---|---|---|
| TreeSearch.ActionStringInjective | InferenceTimeTreeSearch/tools.py:29-33 | two actions with the same printed form are the same action, so the action history keeps which action was taken |
| TreeSearch.BestIndex | InferenceTimeTreeSearch/nodes.py:27-29 | the index of the first entry of least priority in the heap, that is the highest score |
| TreeSearch.Frontier.constructor | InferenceTimeTreeSearch/nodes.py:20-21 | a new frontier is empty |
| TreeSearch.Frontier.Push | InferenceTimeTreeSearch/nodes.py:24-25 | the state is stored with the negated score as its priority, and nothing else changes |
| TreeSearch.Frontier.Len | InferenceTimeTreeSearch/nodes.py:31 | the number of stored entries |
| TreeSearch.Frontier.Pop | InferenceTimeTreeSearch/nodes.py:27-29 | an empty frontier yields nothing; otherwise the entry with the highest score is removed and returned with its score un-negated, and the other entries stay |
| TreeSearch.RemoveAt | InferenceTimeTreeSearch/nodes.py:28 | removing one entry shortens the heap by one |
| TreeSearch.PopTakesBest | InferenceTimeTreeSearch/nodes.py:27-29 | no remaining entry scores higher than the popped one, and the remaining entries plus the popped one are the old entries as a multiset |
| TreeSearch.DigitRun | InferenceTimeTreeSearch/nodes.py:65 | the longest run of digits at the front of the text, as `\d+` matches it |
| TreeSearch.Clamp01 | InferenceTimeTreeSearch/nodes.py:69 | the clamped score lies in [0, 1] and a score already in range is unchanged |
| TreeSearch.Scores | InferenceTimeTreeSearch/nodes.py:60-71 | at most one score per sample, each in [0, 1] |
| TreeSearch.ValueInUnitRange | InferenceTimeTreeSearch/nodes.py:73-80 | the value of a state is always in [0, 1]: 0 with no observation or no parsed score, else the mean of the clamped scores |
| TreeSearch.ValueFunction | InferenceTimeTreeSearch/nodes.py:34-80 | the sampling loop computes the value the specification defines, and that value is in [0, 1] |
| TreeSearch.GoalTokensFrom | InferenceTimeTreeSearch/nodes.py:93 | every token `findall` yields is non-empty |
| TreeSearch.Keywords | InferenceTimeTreeSearch/nodes.py:93-95 | no keyword is a stop word |
| TreeSearch.FilterOut | InferenceTimeTreeSearch/nodes.py:95 | the kept tokens are tokens of the input and none is a stop word |
| TreeSearch.FirstQualifying | InferenceTimeTreeSearch/nodes.py:98-116 | the first search result holding every plain keyword and within the price limit, or, when none is found, that no result qualifies |
| TreeSearch.FirstInCart | InferenceTimeTreeSearch/nodes.py:121-127 | the first cart item holding every plain keyword, or, when none is found, that no cart item qualifies |
| TreeSearch.IsGoalReached | InferenceTimeTreeSearch/nodes.py:83-129 | the goal is reached exactly when there is an observation and either a qualifying result is shown beside an "add to cart" or "buy now" button, or a qualifying item is in the cart |
| TreeSearch.GoalRespectsPriceLimit | InferenceTimeTreeSearch/nodes.py:108-118 | when the goal names a dollar limit and the cart does not decide, a search result at or below that limit was found |
| TreeSearch.CloseQuote | InferenceTimeTreeSearch/nodes.py:144-146 | the lazy `(.*?)` ends at the first quote followed by `]`, with no line break before it |
| TreeSearch.ActionsInBlock | InferenceTimeTreeSearch/nodes.py:144-153 | a search match wins over a choose match; a stop match or no match gives no action; at most one action |
| TreeSearch.ParseLlmAction | InferenceTimeTreeSearch/nodes.py:131-155 | at most one action is parsed from a response |
| TreeSearch.AnswerPhraseNoSelfOverlap | InferenceTimeTreeSearch/prompt.py:58 | the answer phrase cannot overlap itself, so splitting on it is well defined at its last occurrence |
| TreeSearch.ParseIgnoresTextBeforeAnswer | InferenceTimeTreeSearch/nodes.py:137-138 | only the text after the last answer phrase matters for the parsed action |
| TreeSearch.MostCommonIsTopK | InferenceTimeTreeSearch/nodes.py:194-197 | `most_common(k)` keeps min(k, number of distinct candidates) distinct candidates in non-increasing count order, and no candidate left out has a higher count than the last one kept |
| TreeSearch.MostCommonKept | InferenceTimeTreeSearch/nodes.py:194-197 | `most_common(k)` keeps min(k, number of distinct candidates) candidates, all distinct and all among the candidates |
| TreeSearch.MostCommonOrdered | InferenceTimeTreeSearch/nodes.py:194-197 | the kept candidates come in non-increasing order of their counts |
| TreeSearch.MostCommonLeftOut | InferenceTimeTreeSearch/nodes.py:194-197 | no candidate left out has a higher count than the last one kept |
| TreeSearch.LeftOutBound | InferenceTimeTreeSearch/nodes.py:194-197 | a candidate left out of `most_common(k)` has a count no higher than the last one kept |
| TreeSearch.MostCommonTiesInFirstAppearanceOrder | InferenceTimeTreeSearch/nodes.py:194-197 | candidates with equal counts keep their first-appearance order |
| TreeSearch.Proposals | InferenceTimeTreeSearch/nodes.py:157-199 | at most five distinct actions, and none without an observation |
| TreeSearch.ProposalsEmptyWithoutCandidates | InferenceTimeTreeSearch/nodes.py:191-192 | no parsed candidate means no proposed action |
| TreeSearch.CandidatesStep | InferenceTimeTreeSearch/nodes.py:182-189 | each sample appends its parsed actions to the candidates |
| TreeSearch.CollectCandidates | InferenceTimeTreeSearch/nodes.py:180-189 | the sampling loop collects the candidates of all `branching` samples in order |
| TreeSearch.ProposeActions | InferenceTimeTreeSearch/nodes.py:157-199 | the method returns the proposals the specification defines |
| TreeSearch.NextNode | InferenceTimeTreeSearch/nodes.py:252-253 | a successor extends the action history by the action taken, keeps goal and branching, and has an observation |
| TreeSearch.Successors | InferenceTimeTreeSearch/nodes.py:251-256 | one scored successor per proposed action |
| TreeSearch.SuccessorsStep | InferenceTimeTreeSearch/nodes.py:251-256 | each proposed action adds its successor, scored by the value function, after the ones before it |
| TreeSearch.PushSuccessors | InferenceTimeTreeSearch/nodes.py:251-256 | the push loop appends exactly the specified successors to the frontier |
| TreeSearch.ExpandFrontier | InferenceTimeTreeSearch/nodes.py:223-263 | the node leaves the frontier and the search state as the specification's expansion step says |
| TreeSearch.ExpandBookkeeping | InferenceTimeTreeSearch/nodes.py:223-263 | an empty frontier stops the search; otherwise one state is popped, a goal stops the search with the goal answer and no count, and a non-goal counts one step and pushes one successor per proposal; the best score never falls |
| TreeSearch.ExpandWatermark | InferenceTimeTreeSearch/nodes.py:231-237 | the best state changes only with the best score, and then to the popped state, whose score is at least every frontier score |
| TreeSearch.SuccessorsInUnitRange | InferenceTimeTreeSearch/nodes.py:251-256 | every successor's score is in [0, 1] |
| TreeSearch.ExpandKeepsScoresInUnitRange | InferenceTimeTreeSearch/nodes.py:223-263 | expansion keeps every frontier score in [0, 1] |
| TreeSearch.InitializeState | InferenceTimeTreeSearch/nodes.py:203-221 | a fresh frontier holds only the initial state with its value; the counter is 1 and the best score and state are the initial ones |
| TreeSearch.CheckFinish | InferenceTimeTreeSearch/nodes.py:265-270 | "finish" exactly when done, or the counter exceeds max_steps or the budget; otherwise "continue" |
| TreeSearch.ContinueNeedsRoom | InferenceTimeTreeSearch/nodes.py:223-270 | after an expansion that continues, the counter before it was below both max_steps and the budget |
| TreeSearchReplay.SerializeState | InferenceTimeTreeSearch/replay.py:71-93 | the same keys; the frontier becomes its length, or 0 when falsy; the observation becomes exactly ObservationSummary of it; every other value is copied; errors exactly when a truthy frontier has no length or the observation summary fails |
| TreeSearchReplay.ObservationSummary | InferenceTimeTreeSearch/replay.py:78-87 | an observation dictionary becomes an object with exactly query, page, sort, filters, result_count and cart_count |
| TreeSearchReplay.ConfigOrEmpty | InferenceTimeTreeSearch/replay.py:24 | `config or {}` |
| TreeSearchReplay.ReplayLogger.constructor | InferenceTimeTreeSearch/replay.py:11-13 | the log directory is kept and no session is open |
| TreeSearchReplay.ReplayLogger.StartSession | InferenceTimeTreeSearch/replay.py:15-30 | the session id is "session_" plus the timestamp, and a fresh session with empty logs is open |
| TreeSearchReplay.ReplayLogger.LogState | InferenceTimeTreeSearch/replay.py:32-41 | without a session nothing changes; otherwise one state record with the serialised state and score is appended, or the serialisation error is returned |
| TreeSearchReplay.ReplayLogger.LogAction | InferenceTimeTreeSearch/replay.py:43-52 | without a session nothing changes; otherwise one action record is appended |
| TreeSearchReplay.ReplayLogger.EndSession | InferenceTimeTreeSearch/replay.py:54-69 | without a session nothing is returned; otherwise the session with its end time and final result is handed over to be saved, its id is returned, and no session is open |
| TreeSearchReplay.ScoresOf | InferenceTimeTreeSearch/replay.py:112 | the score of every state record, in order, or nothing when a record has no score |
| TreeSearchReplay.ActionStrings | InferenceTimeTreeSearch/replay.py:117 | the action text of every action record, in order |
| TreeSearchReplay.ActionType | InferenceTimeTreeSearch/replay.py:118 | the part of the action text before its first colon, or all of it when there is no colon |
| TreeSearchReplay.ActionTypes | InferenceTimeTreeSearch/replay.py:116-119 | one action type per action, in order |
| TreeSearchReplay.AnalyzeSession | InferenceTimeTreeSearch/replay.py:101-121 | the counting loop computes the analysis the specification defines |
| TreeSearchReplay.AnalysisTotals | InferenceTimeTreeSearch/replay.py:101-121 | the state total equals the length of the score progression, which lists each state's score in order, and the per-type counts add up to the action total |
| TreeSearchReplay.ActionTypeKeys | InferenceTimeTreeSearch/replay.py:116-119 | the action-type keys are distinct, hold no colon, and each is the type of some logged action |
| LaserParsing.ButtonIdMatch | LASER/parsing_utils.py:25 | a match starts with the button tag and yields an id of at least two word characters beginning with "B" |
| LaserParsing.PriceAt | LASER/parsing_utils.py:46 | a price match starts at a "$" and captures a non-empty price text starting with a digit, "." or "," |
| LaserParsing.PriceSearch | LASER/parsing_utils.py:46 | `re.search` finds a price at some position from the start on, and fails only when no position matches |
| LaserParsing.PriceScan | LASER/parsing_utils.py:38-53 | the price search never moves back, and it stops at its start or within the lines |
| LaserParsing.PriceScanSkips | LASER/parsing_utils.py:39-53 | every line the price search passes over is neither a price line nor a button line |
| LaserParsing.PriceScanStops | LASER/parsing_utils.py:39-53 | the search stops at a "$" line, a "Price:" line holding a price, or a button line, with that line's price or "", and running off the end gives "" |
| LaserParsing.LooseItems | LASER/parsing_utils.py:66-77 | a line outside a button item gives at most one item, and never one with an id |
| LaserParsing.PriceLine | LASER/parsing_utils.py:40-52 | one line of the price search: it stops exactly where the specification says the search stops, with that line's price |
| LaserParsing.ScanPrice | LASER/parsing_utils.py:38-53 | the price loop returns the price and stop line of the specification's price search |
| LaserParsing.ItemScanAtButton | LASER/parsing_utils.py:25-62 | a button line gives one item with its id, name and price, and parsing resumes where the price search stopped |
| LaserParsing.ItemScanAtOther | LASER/parsing_utils.py:66-78 | any other line gives its loose items, and parsing resumes at the next line |
| LaserParsing.ParseItemBlock | LASER/parsing_utils.py:8-78 | the parse loop appends exactly the items the specification's scan yields |
| LaserParsing.IdsOfAppend | LASER/parsing_utils.py:55-59 | the ids of two item lists joined are the ids of each, joined |
| LaserParsing.IdsOfLoose | LASER/parsing_utils.py:73-77 | loose items carry no id |
| LaserParsing.SkipPlainLines | LASER/parsing_utils.py:25-26 | lines that are not button lines contribute no button id |
| LaserParsing.ItemIdsAreButtonIds | LASER/parsing_utils.py:8-78 | when no two button lines are adjacent, the item ids are exactly the ids of the button lines, in order |
| LaserParsing.ButtonLineItem | LASER/parsing_utils.py:26-59 | a button line yields an item with its id and the searched price; its name is the rest of the line unless that is empty or a price, then the next line |
| LaserParsing.AdjacentButtonLineSkipped | LASER/parsing_utils.py:34-61 | a bare button line directly followed by another takes that line as its name, and the price search starts two lines down, so the second button's item is skipped |
| LaserParsing.FoundLineIsNoButton | LASER/parsing_utils.py:41-52 | a line with a price is never a button line |
| LaserParsing.LooseItemsAtFound | LASER/parsing_utils.py:66-77 | a price line read as a loose item takes the line before it as its name |
| LaserParsing.PriceLineReadTwice | LASER/parsing_utils.py:39-78 | the price line found for a button item is parsed again as a loose item named by the line before it, with the same price |
| LaserParsing.LazyUntil | LASER/parsing_utils.py:138 | the lazy `(.*?)` ends at the first closing tag, with no line break before it |
| LaserParsing.ButtonAt | LASER/parsing_utils.py:138-143 | a button match starts at a button or clicked-button tag, marks exactly the clicked ones, and its text has no line break |
| LaserParsing.ButtonsIn | LASER/parsing_utils.py:138-143 | no button text holds a line break |
| LaserParsing.PageSearch | LASER/parsing_utils.py:148-154 | `re.search` finds a page header at some position, and fails only when none matches |
| LaserParsing.NumberAt | LASER/parsing_utils.py:148 | a decimal numeral not followed by a digit reads back as its number |
| LaserParsing.TotalAtSome | LASER/parsing_utils.py:148-153 | a " (Total results: m)" suffix reads back as m |
| LaserParsing.TotalAtNone | LASER/parsing_utils.py:153 | without that suffix there is no total |
| LaserParsing.PageLineRead | LASER/parsing_utils.py:146-154 | a printed page header reads back as its page number and total, a round trip |
| LaserParsing.OptionLineAt | LASER/parsing_utils.py:84 | one option line of a customization block is consumed, when it matches |
| LaserParsing.CustomizationAt | LASER/parsing_utils.py:84 | the doubled backslashes make every matched key a literal backslash followed by letters w |
| LaserParsing.CustomizationsIn | LASER/parsing_utils.py:81-89 | the block adds only such keys and keeps every key already there |
| LaserParsing.ProcessSection | LASER/parsing_utils.py:131-166 | processing a section keeps the raw observation and adds only backslash-w customization keys |
| LaserParsing.BlankObservation | LASER/parsing_utils.py:112-125 | no observation, or a blank one, gives the empty parse with the raw text kept |
| LaserParsing.ScanLinesKeeps | LASER/parsing_utils.py:168-211 | the section loop keeps the raw observation and the key invariant |
| LaserParsing.ParseKeepsRawAndCustomizationKeys | LASER/parsing_utils.py:110-213 | a parse keeps the raw observation, and every customization key is a literal backslash followed by letters w |
| LaserParsing.WordLabelIsNotCustomization | LASER/parsing_utils.py:187 | a plain word label such as "color:" never opens a customization section |
| LaserParsing.DetailsFlags | LASER/parsing_utils.py:159-166 | an item-details section stores its text, and sets each viewed flag exactly when its label occurs without its placeholder, or when the flag was already set |
| LaserParsing.ProcessSectionM | LASER/parsing_utils.py:131-166 | the section processor computes the specification's section result |
| LaserParsing.CloseM | LASER/parsing_utils.py:210-211 | the final section is processed as the specification says |
| LaserParsing.StepM | LASER/parsing_utils.py:169-208 | one line of the loop changes the section state as the specification's step says |
| LaserParsing.ScanLinesStep | LASER/parsing_utils.py:168-208 | scanning lines is one step per line, in order |
| LaserParsing.ParseObservationM | LASER/parsing_utils.py:110-213 | the parse loop computes the specification's parse |
| LaserParsing.PricePhrase | LASER/parsing_utils.py:97 | a price phrase match is non-empty and captures a non-empty run of digits and dots |
| LaserParsing.WithoutPricePhrases | LASER/parsing_utils.py:101 | removing the price phrases never lengthens the text |
| LaserParsing.ParseTargetInstruction | LASER/parsing_utils.py:91-108 | the maximum price is present exactly when a price phrase occurs, and is then the number of the leftmost phrase; the keywords are exactly the separator-split words of the text with its phrases removed, each non-empty and free of separators; the error case is exactly a leftmost phrase whose number `float` rejects |
| LaserParsing.FirstPricePhraseIff | LASER/parsing_utils.py:97 | the search finds a phrase exactly when one starts at some position |
| LaserParsing.FirstPricePhraseLeftmost | LASER/parsing_utils.py:97 | the number `re.search` reports is that of a phrase starting at some position with no phrase starting before it |
| LaserParsing.KeptCharacters | LASER/parsing_utils.py:101 | `re.sub` leaves exactly the characters of the scan's kept positions, in order, and no phrase of the original text starts at a kept position |
| LaserParsing.SubstitutionCanLeaveAPhrase | LASER/parsing_utils.py:101 | one pass of `re.sub` can leave a phrase behind: removing the inner phrase of `price uprice under 5nder 3` gives `price under 3`, which the keywords then keep |
| LaserParsing.NoPNothingRemoved | LASER/parsing_utils.py:101 | a text with no `p` in either case passes through the substitution unchanged |
| LaserParsing.NoPhraseNothingRemoved | LASER/parsing_utils.py:101 | without a price phrase, `re.sub` changes nothing |
| LaserParsing.NoPhraseKeywords | LASER/parsing_utils.py:91-108 | without a price phrase, the keywords are the separator-split words and there is no maximum price |
| LaserParsing.PhraseAlone | LASER/parsing_utils.py:97-108 | "price lower than n dollars" alone parses to no keywords and a maximum price of n |
| LaserParsing.WholePhrase | LASER/parsing_utils.py:97-108 | an instruction that is all one price phrase leaves no keywords |
| LaserTools.ActionStrings | LASER/tools.py:21-81 | every tool name, in any case, is sent as its WebShop action: search and select_item put their argument in brackets, the other seven send a fixed click |
| LaserTools.UnknownToolRaises | LASER/tools.py:35-41 | a name that is not a tool, in any case, raises ValueError |
| LaserMemory.FindItem | LASER/nodes.py:237 | the first buffer entry with the candidate's item id, or, when none is found, that no entry has it |
| LaserMemory.Overlay | LASER/nodes.py:250 | the merged entry has the stored keys plus the incoming keys whose value is neither None nor "", and those incoming values win |
| LaserMemory.ListOrEmpty | LASER/nodes.py:253 | `x or []`: a list is kept, a falsy value gives [], and concatenating any other value fails |
| LaserMemory.MemoryBuffer.constructor | LASER/nodes.py:235 | the buffer starts empty |
| LaserMemory.MemoryBuffer.AddOrUpdate | LASER/nodes.py:232-260 | the buffer becomes the specification's upsert, the stamped candidate is returned, and a failed merge changes nothing |
| LaserMemory.UpsertAt | LASER/nodes.py:248-256 | an entry already present is replaced in place by its merge with the stamped candidate |
| LaserMemory.StampFields | LASER/nodes.py:240-241 | the candidate gets last_seen_step and times_seen, and its other keys are kept |
| LaserMemory.MergeFields | LASER/nodes.py:250-254 | the merge takes the deduplicated actions_taken, the kept incoming values, and the stored values elsewhere |
| LaserMemory.UpsertNewItem | LASER/nodes.py:243-246 | a new item is appended behind the old entries with times_seen 1 and the current step |
| LaserMemory.UpsertExistingItem | LASER/nodes.py:240-256 | a known item keeps its position, its times_seen grows by one, its last_seen_step is the current step, and other entries stay |
| LaserMemory.MergeKeepsStoredValues | LASER/nodes.py:250 | a stored value survives unless the candidate brings a kept value for that key, and no other key appears |
| LaserMemory.MergedActionsOf | LASER/nodes.py:253 | the merged actions are the stored and incoming actions, deduplicated |
| LaserMemory.MergedActionsFirstOccurrences | LASER/nodes.py:253 | `dict.fromkeys` keeps each action once, exactly those of either list, and the deduplicated stored actions come first |
| LaserMemory.UpsertKeepsInvariant | LASER/nodes.py:232-260 | the upsert keeps item ids distinct across the buffer |
| LaserMemory.MergedKeyKept | LASER/nodes.py:250 | merging never changes the item id |
| LaserMemory.KeyOrderTotal | LASER/nodes.py:871-879 | the (score, last_seen_step, times_seen) order compares any two keys exactly one way |
| LaserMemory.KeyLessTransitive | LASER/nodes.py:871-879 | that order is transitive |
| LaserMemory.BestIndex | LASER/nodes.py:879-881 | the first entry of greatest key, which a stable descending sort puts first |
| LaserMemory.StoppingSelectionChoice | LASER/nodes.py:849-887 | a non-empty selected item is returned as it is; otherwise an empty buffer gives the no-item note, and a non-empty one gives its first entry of greatest key |
| LaserFeedback.AnyIn | LASER/nodes.py:315-332 | some keyword occurs in the text |
| LaserFeedback.ShouldRethinkIff | LASER/nodes.py:287-335 | rethink exactly when the feedback is non-empty and has a strong negative keyword, or has no positive keyword, a weak negative one and more than five words |
| LaserFeedback.CountAtStep | LASER/nodes.py:371-372 | the rethinks recorded for a step are at most the whole history |
| LaserFeedback.RethinkLimitKeepsOriginal | LASER/nodes.py:371-378 | after two rethinks at a step, the original action is kept and nothing is recorded |
| LaserFeedback.RethinkRecordsOnlyChanges | LASER/nodes.py:390-428 | below the limit the reply's action is taken; a record is appended exactly when that action is non-empty and differs from the original, adding one rethink for the step |
| LaserFeedback.FailedRethinkRecordsNothing | LASER/nodes.py:405-408 | a reply without a tool call keeps the original action and records nothing |
| LaserFeedback.RaisedRethinkRecordsNothing | LASER/nodes.py:435-438 | a rethink call that raises, below the limit, keeps the original action, notes the failure after the rationale and records nothing |
| LaserFeedback.CountAfterRecord | LASER/nodes.py:414-423 | a record counts for its own step only |
| LaserFeedback.RethinkKeepsLimit | LASER/nodes.py:364-438 | no step ever gets more than two rethink records |
| LaserFeedback.RethinkLog.constructor | LASER/nodes.py:369 | the rethink history starts empty |
| LaserFeedback.RethinkLog.Rethink | LASER/nodes.py:364-438 | the result and the new history are the specification's rethink of the old history |
| LaserNodes.WithFeedback | LASER/nodes.py:605-615 | a non-empty feedback appends one record for this step and space; no feedback leaves the history as it was |
| LaserNodes.Choose | LASER/nodes.py:525-542 | the feedback stage keeps an immediate decision; without a review or with an empty action the proposal passes unchanged; with feedback that calls for no rethink the proposal passes with the feedback; only a rethink can change the history, by one record stamped with the step, below the limit |
| LaserNodes.RethinkAppendsOne | LASER/nodes.py:364-438 | a rethink leaves the history as it was or appends exactly one record stamped with the step, below the limit |
| LaserNodes.ChooseKeepsAdded | LASER/nodes.py:370-428 | because the rethink appends to the list the state shares, feedback stages at one step only ever add records stamped with that step and keep the limit |
| LaserNodes.RethinksAddedKeepLimit | LASER/nodes.py:371-378 | records added at one step leave every other step's rethink count as it was |
| LaserNodes.Stepped | LASER/nodes.py:593-603 | a node step counts one step, appends the raw action and the thought, sets the space, route, observation and info, takes the rethink history its feedback stage left, and keeps every other field |
| LaserNodes.NodeSearchSpace | LASER/nodes.py:552-617 | an unknown tool or bad arguments raise; otherwise the environment takes exactly the step `OfflineWebshopEnv.Step` prescribes for the action string (`StepEffect`: its outcome, new index and new selection), and the new state holds that step's observation and info, going to Stopping when the step is done or errs and to Result with the feedback recorded otherwise |
| LaserNodes.ResultRoute | LASER/nodes.py:659-693 | select_item goes to Item, back_to_search to Search, anything else stays in Result |
| LaserNodes.ResultRoutesAreEdges | LASER/graph.py:68-77 | every route the result node sets is an edge of the graph, to the node of the space it names |
| LaserNodes.FindListed | LASER/nodes.py:670 | the first parsed item with the selected id, or, when none is found, that no parsed item has it |
| LaserNodes.ScoreItem | LASER/nodes.py:263-284 | the item score is in [0, 1]: the model's score clamped, 0.5 when the reply holds no score, 0 when the call fails |
| LaserNodes.StrList | LASER/nodes.py:678 | the instruction's words as a JSON list, in order |
| LaserNodes.ResultCandidate | LASER/nodes.py:672-686 | the candidate carries the item's id, the Result source, the one raw action and the score |
| LaserNodes.SelectedCandidateOf | LASER/nodes.py:662-686 | a candidate is formed only for a truthy item id, which it carries, with the Result source and the raw action |
| LaserNodes.RecordSelection | LASER/nodes.py:687-688 | a formed candidate is upserted into the buffer exactly as the memory buffer's upsert prescribes, failing iff that upsert fails; no candidate or a failure leaves the buffer unchanged |
| LaserNodes.NodeResultSpace | LASER/nodes.py:620-719 | the lowered action is executed as `StepEffect` prescribes for its action string, and the new state holds that step's observation, info and recorded action, with the instruction and selection kept; a done or failing step goes to Stopping with nothing buffered; otherwise the route follows the tool, the feedback is recorded, and on select_item the memory buffer becomes the upsert of the selected listed candidate (`ResultBuffer`), the node failing when that upsert fails; any failure leaves the buffer unchanged |
| LaserNodes.ResultStep | LASER/nodes.py:656-719 | after the step, the buffer becomes `ResultBuffer` of the old one and the state `ResultState`, or the upsert's failure is returned with the buffer unchanged |
| LaserNodes.ResultBuffer | LASER/nodes.py:662-688 | a step that is done, errs or is not select_item leaves the buffer as it was |
| LaserNodes.ResultStateShape | LASER/nodes.py:641-719 | the new state counts one more step, appends the recorded action and the thought, holds the buffer, keeps the rethink history of the feedback stage, and goes to Stopping or to the tool's route with the feedback recorded |
| LaserNodes.FirstUnvisited | LASER/nodes.py:138 | the first information page not yet visited, in description, features, reviews order, or description when all are visited |
| LaserNodes.RedirectToFirstUnvisited | LASER/nodes.py:135-150 | leaving, or reopening a visited page, while some page is unvisited is redirected to the first unvisited page |
| LaserNodes.FirstVisitMarks | LASER/nodes.py:142-145 | a first visit to a page marks it |
| LaserNodes.OtherChoicesPass | LASER/nodes.py:134-150 | any other choice, or any choice once all pages are visited, passes unchanged |
| LaserNodes.VisitRuleMonotone | LASER/nodes.py:134-150 | a visited page stays visited, at most the chosen page is marked, and a redirect always goes to an unvisited page |
| LaserNodes.RepeatedLeavingReopensDescription | LASER/nodes.py:135-141 | leaving with nothing visited opens description, and since that is not marked, leaving again does the same |
| LaserNodes.NormAction | LASER/nodes.py:53-54 | a falsy value becomes "", a string is stripped and lower-cased, and anything else raises |
| LaserNodes.CorrectedExpectationBuys | LASER/nodes.py:74-83 | the expected action calls for buying exactly when it is a click other than the six information and navigation clicks |
| LaserNodes.LastClick | LASER/nodes.py:93 | the latest history entry that is a click with a target, or "" |
| LaserNodes.ClickTargetOfId | LASER/nodes.py:93-94 | the target is read back from a click on an id without brackets |
| LaserNodes.BoughtItem | LASER/nodes.py:96-105 | the bought item has the Item source and the chosen id, and "Unknown Item" and "N/A" when the page shows no name and price |
| LaserNodes.FullObs | LASER/nodes.py:122 | the gathered information is appended behind the observation, which stays a prefix |
| LaserNodes.ChosenAction | LASER/nodes.py:124-125 | no decision means previous_page; a chosen action always has a string name |
| LaserNodes.Bought | LASER/nodes.py:99-118 | a purchase stops with the bought item selected and the action, thought and rethink histories given, keeping every other field |
| LaserNodes.Left | LASER/nodes.py:192-229 | leaving the item page routes as given, takes the action, thought and rethink histories given, and keeps the selection and every other field |
| LaserNodes.BuyingExits | LASER/nodes.py:159-189 | a purchase is a valid exit of the micro-agent |
| LaserNodes.LeavingExits | LASER/nodes.py:191-229 | stopping on done or error, or going back to Result after the last inner step, is a valid exit |
| LaserNodes.BuyAtOnce | LASER/nodes.py:83-118 | the purchase without a model call executes only buy_now, is a valid exit, and leaves the thought and rethink histories as they were |
| LaserNodes.NodeItemSpace | LASER/nodes.py:722-735 | the entry decision is thrown away but its rethink record stays; the micro-agent then exits validly from the state holding it, and the whole node only adds rethinks stamped with its step |
| LaserNodes.InnerStep | LASER/nodes.py:120-157 | one inner step executes the action the visit rule gives for the model's choice (`VisitedAction`): the step returned is the one `StepEffect` prescribes for that action's string, with the environment's new index and selection; it fails when the choice or that action cannot be executed |
| LaserNodes.RunItemMicroAgent | LASER/nodes.py:40-229 | every exit stops or goes back to Result after between 1 and max_inner_steps + 1 actions, keeps both histories' prefixes, only adds rethinks stamped with the starting step and within the limit, buys only as the last action, and selects an item only by buying; an expected purchase buys at once without a thought or a rethink, and a non-string expectation raises |
| LaserNodes.ItemLoop | LASER/nodes.py:120-229 | the inner loop, each step running the feedback stage on the shared rethink list, ends in a valid exit of the micro-agent |
| LaserNodes.ItemRoutesAreEdges | LASER/graph.py:80-88 | the item node's routes are edges of the graph, to Stopping and Result |
| LaserGraph.RouterFn | LASER/graph.py:32-48 | a spent step budget routes to Stopping; otherwise the state's route is returned, and a missing or empty route raises |
| LaserGraph.SearchAlwaysReachesResult | LASER/graph.py:65 | Search always goes on to Result |
| LaserGraph.ResultTargets | LASER/graph.py:68-77 | Result goes to Item, Result, Search or Stopping, each as its route says |
| LaserGraph.ItemTargets | LASER/graph.py:80-88 | Item goes to Item, Result or Stopping, and a to_search route has no edge |
| LaserGraph.BudgetSpentStops | LASER/graph.py:38-40 | once the budget is spent, Result and Item go to Stopping, and Stopping ends the run |
| LaserGraph.InitialState | LASER/graph.py:129-141 | the run starts in Search at step 0 with empty histories and buffer, the given instruction, observation and URL, and no route |
| LaserGraph.InitialStateNeedsNoRoute | LASER/graph.py:62-65 | the first step needs no route because Search's edge is fixed, though the router would raise on the initial state |
| LaserGraph.Config | LASER/graph.py:145-147 | the recursion limit is twice max_steps, and a thread id is set exactly when a session id is given |
| LaserReplay.FormatReadsNameAndArgs | LASER/replay.py:108-133 | the formatted action depends only on the logged name and arguments |
| LaserReplay.FormatOfLogged | LASER/replay.py:114-133 | search and the four item-click aliases take their argument, or "" when it is missing, in brackets; every other name gets its fixed click or "" |
| LaserReplay.FormatAgreesWithToolKit | LASER/replay.py:108-133 | for every tool but previous_page, replay formats exactly the action string the tool kit sends |
| LaserReplay.FixedFormatAgrees | LASER/replay.py:118-131 | the six argument-free tools other than previous_page format as the tool kit's fixed clicks |
| LaserReplay.PreviousPageFormatsEmpty | LASER/replay.py:126-133 | "previous_page" is not one of replay's names for going back, so it formats as "", while the tool kit sends "click[< Prev]" |
| LaserReplay.LowerOfToolName | LASER/replay.py:110-112 | tool names are already stripped and lower case |
| LaserReplay.Entries | LASER/replay.py:141 | a logged list gives its entries in order and an empty string or dict gives none; a non-empty string or dict raises AttributeError at its first (string) entry, and any other value is not iterable (TypeError) |
| LaserReplay.FirstNonDict | LASER/replay.py:141-150 | the position of the first entry that is not a dict, every entry before it being one, and the end only when all are |
| LaserReplay.NormalizeStopsAtNonDict | LASER/replay.py:141-152 | entries are handled one at a time: the first entry that is not a dict raises its own error (TypeError at `in`, AttributeError at `.get` for a string or list) unless a dict before it already raised, and later entries are never looked at |
| LaserReplay.LeftmostEntryRaisesFirst | LASER/replay.py:150-152 | an item page action whose `llm_action` is 5 raises AttributeError before the non-dict entry after it is reached |
| LaserReplay.ItemPageDict | LASER/replay.py:154-165 | an item-page action becomes a step with a step number, the logged name and arguments, and their formatted action |
| LaserReplay.NormalizeM | LASER/replay.py:135-170 | the normalising loop computes the specification's normalised trajectory |
| LaserReplay.NormalizeErrSticks | LASER/replay.py:141-170 | once a step raises, the whole normalisation raises the same error |
| LaserReplay.NormalizeShrinks | LASER/replay.py:141-170 | normalising never adds steps |
| LaserReplay.NormalizeSnoc | LASER/replay.py:141-170 | each raw step adds at most one normalised step, in order, and steps of other formats are dropped |
| LaserReplay.NormalizedStepCarriesFormat | LASER/replay.py:143-166 | a step with a step number and an action is kept as it is; any other kept step carries its formatted action |
| LaserReplay.FilledStepCarriesFormat | LASER/replay.py:144-145 | filling in the action does not change what the step formats to |
| LaserReplay.ItemPageStepCarriesFormat | LASER/replay.py:150-166 | a converted item-page step has a step number and carries its formatted action |
| LaserReplay.NormalizeStepStable | LASER/replay.py:135-170 | normalising a normalised step changes nothing, so a second reset sees the same trajectory |
| LaserReplay.FilledStepIsFixed | LASER/replay.py:143-147 | a step that already carries its formatted action is kept as it is |
| LaserReplay.IsMatch | LASER/replay.py:74 | a match is exactly a truthy expected action equal to the action, both stripped, and a truthy non-string expected action raises |
| LaserReplay.IndexSessions | LASER/replay.py:28-30 | indexing succeeds exactly when every episode has a hashable session id |
| LaserReplay.IndexSessionsError | LASER/replay.py:28-30 | a failure is the KeyError or TypeError of the first episode that cannot be indexed |
| LaserReplay.IndexSessionsKeys | LASER/replay.py:28-30 | the keys are exactly the integers that find some episode's id |
| LaserReplay.IndexSessionsLastWins | LASER/replay.py:28-30 | each key holds the last episode whose id it finds |
| LaserReplay.SessionKey | LASER/replay.py:28-38 | an integer id is found by that integer; a string, None, list or dict id by none |
| LaserReplay.SessionKeyExamples | LASER/replay.py:28-38 | `True` is found by 1 and `3.0` by 3; `3.5` and `"3"` by no integer |
| LaserReplay.OfflineWebshopEnv.constructor | LASER/replay.py:18-34 | the sessions are indexed, no episode is current, the step index is 0 and no item is selected |
| LaserReplay.OfflineWebshopEnv.CurrentStepInfo | LASER/replay.py:101-105 | the current step exactly when an episode is current and steps remain |
| LaserReplay.OfflineWebshopEnv.Reset | LASER/replay.py:36-55 | an unknown session changes nothing and gives None; a known one becomes current with its normalised trajectory from step 0 and no selection, and gives the first observation, or None for an empty trajectory |
| LaserReplay.OfflineWebshopEnv.Step | LASER/replay.py:57-99 | with no episode or no steps left, a done step with the error info; otherwise the logged selection is tracked, the index moves on by one, and the outcome reports the match |
| LaserReplay.StepOutcomeFacts | LASER/replay.py:76-99 | the outcome reports the action, whether it matched and the index, has no error, and the last step is done |
| LaserReplay.Execute | LASER/tools.py:33-44 | an unknown tool raises and changes nothing; any other action has on the replay the very effect OfflineWebshopEnv.Step has on its action string, so the index moves by at most one |
| LaserReplay.StubMatchesFormattedSteps | LASER/replay.py:173-180 | the stub policy's prediction matches every normalised step whose formatted action is non-empty |
| LaserReplay.Accuracy | LASER/replay.py:227 | the accuracy is a percentage in [0, 100], 0 with no steps and 100 when every step matched |
| LaserReplay.RunEpisode | LASER/replay.py:190-229 | the matched steps are at most the steps taken, which are at most the trajectory's length, and the accuracy is theirs |
| KnowTools.LastBefore | KnowAgent/tools.py:167 | the last occurrence of a character in a range, as the greedy `(.+)` before a final `]` backtracks to it, or, when none is found, that the range has none |
| KnowTools.ParseWellFormed | KnowAgent/tools.py:163-177 | a word, "[", a non-empty argument without line breaks and "]" parse back into that word and argument, a round trip |
| KnowTools.StrictMatchShape | KnowAgent/tools.py:167-174 | a strict match is exactly a word and a non-empty one-line argument in brackets, optionally followed by one final line break, as `$` allows |
| KnowTools.FuzzyParseShape | KnowAgent/tools.py:179-191 | after stripping blanks and then periods, a match gives a word and a one-line argument whose bracketed form starts the text; no match gives the stripped text and an empty argument |
| KnowTools.ParseActionShape | KnowAgent/tools.py:163-191 | whenever an argument is found, the action type is a word and the argument has no line break |
| KnowTools.BreakEnd | KnowAgent/tools.py:155 | the split pattern, a literal backslash followed by letters s after an end mark, matches exactly where that text occurs |
| KnowTools.PiecesFrom | KnowAgent/tools.py:155 | the split always has at least one piece |
| KnowTools.Sentences | KnowAgent/tools.py:155 | the split always has at least one piece |
| KnowTools.SentencesHaveNoBreak | KnowAgent/tools.py:155 | no piece of the split holds a separator |
| KnowTools.NoBackslashOnePiece | KnowAgent/tools.py:155 | a text without backslashes is not split at all |
| KnowTools.FirstContaining | KnowAgent/tools.py:156-159 | the first piece holding the keyword, ignoring case, or, when none is found, that no piece holds it |
| KnowTools.LookupKeywordCases | KnowAgent/tools.py:147-160 | no passage and no keyword give their messages; otherwise the result is a piece holding the keyword, or the not-found message when no piece holds it |
| KnowTools.LookupReturnsWholePassage | KnowAgent/tools.py:155-159 | since the pattern needs a literal backslash, a passage without one that holds the keyword comes back whole |
| KnowTools.LookupOfTwoSentences | KnowAgent/tools.py:155-159 | looking up "b" in "A. B" returns the whole passage, not the second sentence |
| KnowTools.NetworkToolsSeeStrippedRequest | KnowAgent/tools.py:16-144 | the network tools look only at the stripped request, and a blank request gets its "No entity provided." or "No query provided." answer without a call |
| KnowPrompt.Observations | KnowAgent/prompt_utils.py:27 | the observation lines are lines of the scratchpad, each starting with "Observation" |
| KnowPrompt.TruncatedIdempotent | KnowAgent/prompt_utils.py:42-45 | truncating a truncated line changes nothing |
| KnowPrompt.TruncateScratchpad | KnowAgent/prompt_utils.py:11-49 | the result is `Truncation`: without a tokenizer the scratchpad unchanged; otherwise the lines after exactly as many pops of the longest-first queue as it takes to fit, each pop cutting the first line equal to it and a pop with no equal line changing nothing; every earlier count was over the budget, the result fits or the queue was emptied, and every line is its original or its truncation |
| KnowPrompt.CutLongestFirst | KnowAgent/prompt_utils.py:33-47 | the loop's lines are those after `replaced` pops (`AfterPops`), every count of pops before `replaced` left the text over the budget, and it stops at the first fit or an empty queue; every line keeps its fate |
| KnowPrompt.FirstEqual | KnowAgent/prompt_utils.py:39-41 | the first position holding the popped line, none before it holding it, or the end when no line does |
| KnowPrompt.FindLine | KnowAgent/prompt_utils.py:39-46 | the search loop stops at exactly the first line equal to the popped observation, or at the end |
| KnowPrompt.Pops | KnowAgent/prompt_utils.py:33-47 | the number of pops is the least count from which the text fits, or the whole queue; every smaller count is over the budget |
| KnowPrompt.PopsIsFirstFit | KnowAgent/prompt_utils.py:33-47 | any count over the budget everywhere before it that fits or empties the queue is the number of pops, so the loop's count is unique |
| KnowPrompt.PopStep | KnowAgent/prompt_utils.py:36-47 | one more pop cuts the first line equal to the queue's head, or changes nothing when none is, and the count before it was over the budget |
| KnowPrompt.QueuedIsObservation | KnowAgent/prompt_utils.py:29-31 | everything queued for cutting is an observation line |
| KnowPrompt.CutKeepsFate | KnowAgent/prompt_utils.py:40-46 | cutting an observation line keeps every line the original or its truncation |
| KnowPrompt.CutKeepsQueue | KnowAgent/prompt_utils.py:37-46 | cutting the next queued observation keeps the record of what was cut |
| KnowPrompt.QueueGrows | KnowAgent/prompt_utils.py:37 | an observation popped but not found in the lines still counts among the pops, and every changed line is still among the popped ones |
| KnowPrompt.TruncationKeepsLines | KnowAgent/prompt_utils.py:25-49 | the truncated scratchpad has as many lines as the original, and splits back into them |
| KnowPrompt.LongestCutFirst | KnowAgent/prompt_utils.py:29-37 | every cut observation has at least as many tokens as every one still kept |
| KnowPrompt.BuildPromptStages | KnowAgent/prompt_utils.py:73-84 | the three stages build a prompt, and any other stage raises ValueError |
| KnowPrompt.BuildPromptShape | KnowAgent/prompt_utils.py:62-86 | a stage prompt starts with the filled-in base prompt and ends with the stage's cue for the step |
| KnowPrompt.BasePromptEnds | KnowAgent/prompt_utils.py:62-71 | the base prompt ends with the question and the scratchpad |
| KnowNodes.CandidateShape | KnowAgent/nodes.py:96-104 | the fallback answer is the given default when no passage was seen, else the last passage, cut to its first 300 characters followed by "..." when it is longer |
| KnowNodes.DecisionIsAllowed | KnowAgent/nodes.py:75-140 | whatever the model answers, the decided action type is one of Retrieve, Search, Lookup or Finish |
| KnowNodes.FallbackRule | KnowAgent/nodes.py:75-112 | a known type with a non-blank argument is kept; otherwise the first step searches the question and later steps finish with the candidate answer; both directions, and the result is always an allowed type |
| KnowNodes.GuardRule | KnowAgent/nodes.py:114-140 | the consecutive-search count grows on Search and resets otherwise; when the step reaches the auto-finish step, or the searches reach their limit, the decision becomes Finish with the candidate answer and a zero count; otherwise it is kept as it is |
| KnowNodes.GuardBounds | KnowAgent/nodes.py:114-140 | from the auto-finish step on the run always finishes, a Search decision never reaches the consecutive-search limit, and any other decision resets the count |
| KnowNodes.AskStage | KnowAgent/nodes.py:28-71 | each stage's prompt is `build_prompt` over the scratchpad as `truncate_scratchpad` leaves it (`Truncation`, the whole scratchpad when no tokenizer is available), ends with that stage's cue for the current step, and the reply is the model's answer to exactly that prompt |
| KnowNodes.NodeDecide | KnowAgent/nodes.py:16-150 | three prompts are asked in the order action path, thought, action, each `build_prompt` over the truncation of the scratchpad extended by the earlier stages' lines; the replies are the model's answers to them; the new state holds the three lines appended to the full scratchpad and the guarded decision, and nothing else changes |
| KnowNodes.ApplyGuards | KnowAgent/nodes.py:75-140 | the step-by-step fallback and guard code computes the same decision as the rule stated by FallbackRule and GuardRule |
| KnowNodes.NodeFinish | KnowAgent/nodes.py:232-249 | finishing marks the run finished, records the argument as the answer and advances the step |
| KnowNodes.AppendLineShape | KnowAgent/nodes.py:161-164 | an appended line keeps the old scratchpad as a prefix and ends the text, with a line break put in between only when the scratchpad is non-empty and does not already end with one |
| KnowNodes.ObservedUpdate | KnowAgent/nodes.py:153-200 | after a tool step the step advances, the observation line ends the scratchpad, the observation joins the passages exactly when it is non-empty, and no other field changes |
| KnowNodes.LookupAlwaysRecords | KnowAgent/nodes.py:203-229 | a lookup always records one new passage, the keyword search of the last passage for the argument |
| KnowNodes.EmptyArgumentAsksNoService | KnowAgent/nodes.py:153-200 | with a blank argument, retrieve and search call no service and record "No entity provided." and "No query provided." |
| KnowGraph.Title | KnowAgent/graph.py:51 | the title-cased text has the same length, and each character is upper-cased after a non-letter and lower-cased after a letter |
| KnowGraph.TitleIgnoresCase | KnowAgent/graph.py:51 | title-casing gives the same text whatever the case of the input |
| KnowGraph.RouteIgnoresCase | KnowAgent/graph.py:50-67 | the route out of decide does not depend on the case of the action type |
| KnowGraph.DecisionsReachTheirTool | KnowAgent/graph.py:50-67 | each of the four allowed action types is routed to its own node |
| KnowGraph.UnknownTypesSearch | KnowAgent/graph.py:63-67 | a missing or unknown action type is routed to search |
| KnowGraph.ToolsReturnToDecide | KnowAgent/graph.py:81-97 | retrieve, search and lookup return to decide while the run is not finished, and finish always ends the run |
| KnowGraph.AutoFinishEndsRun | KnowAgent/graph.py:50-62 | from the auto-finish step on, decide always routes to finish |
| KnowGraph.InitialState | KnowAgent/graph.py:121-127 | a run starts at step 1 with the question, an empty scratchpad, no passages and nothing decided or finished |
| KnowGraph.Config | KnowAgent/graph.py:47-130 | the graph is entered at decide and the run's recursion limit is the maximum number of steps |
| AgentQBlocks.HeaderAt | AgentQ/agentq/prompt_utils.py:118 | a header match at a position ends after it, and gives the captured word as it is written |
| AgentQBlocks.PartsFromNoHeader | AgentQ/agentq/prompt_utils.py:119 | splitting text that has no header from some point on leaves that rest as one piece |
| AgentQBlocks.ReadParts | AgentQ/agentq/prompt_utils.py:122-134 | the loop over the split pieces leaves every block holding the body of its last header, or "" when none opened it |
| AgentQBlocks.SplitOutputBlocks | AgentQ/agentq/prompt_utils.py:113-135 | the method computes the four blocks of the answer, as OutputBlocks defines them |
| AgentQBlocks.NoHeaderNoBlocks | AgentQ/agentq/prompt_utils.py:116-121 | an answer with no header line gives four empty blocks |
| AgentQBlocks.BlocksStripped | AgentQ/agentq/prompt_utils.py:128-134 | all four blocks are always present and come out stripped |
| AgentQBlocks.LowerCaseNotKey | AgentQ/agentq/prompt_utils.py:118-126 | the pattern ignores case but a header word opens a block only when written exactly as one of the four names, so a lower-case one does not |
| AgentQBlocks.OtherCaseHeaderIsText | AgentQ/agentq/prompt_utils.py:124-132 | a captured word that is not exactly a name is kept in the open block as text |
| AgentQBlocks.LeadCarried | AgentQ/agentq/prompt_utils.py:122-132 | text before the first header ends up at the start of the first block |
| AgentQBlocks.RepeatedHeaderOverwrites | AgentQ/agentq/prompt_utils.py:126-130 | a repeated header replaces the earlier block of that name with the later body |
| AgentQBlocks.RawCommand | AgentQ/agentq/prompt_utils.py:141-145 | a command line comes out stripped and without one leading '-' |
| AgentQBlocks.NonEmpty | AgentQ/agentq/prompt_utils.py:153 | the kept entries are exactly the non-empty entries |
| AgentQBlocks.ReadCommandLines | AgentQ/agentq/prompt_utils.py:140-146 | the first loop gives the raw commands of the lines, blank lines skipped |
| AgentQBlocks.KeepNew | AgentQ/agentq/prompt_utils.py:151-155 | a new entry is kept exactly when it is non-empty and not already kept |
| AgentQBlocks.DropRepeats | AgentQ/agentq/prompt_utils.py:149-155 | the second loop keeps the stripped non-empty commands, only the first copy of each, in order |
| AgentQBlocks.ExtractCommandsAndStatus | AgentQ/agentq/prompt_utils.py:137-156 | the commands and the status are those of the COMMANDS and STATUS blocks |
| AgentQBlocks.RawCommandsStripped | AgentQ/agentq/prompt_utils.py:141-146 | every raw command is stripped |
| AgentQBlocks.CommandsShape | AgentQ/agentq/prompt_utils.py:137-156 | the commands are non-empty, stripped and distinct, and every non-empty raw command of the block is among them |
| AgentQBlocks.DashedLines | AgentQ/agentq/prompt_utils.py:140-146 | blank lines are skipped and exactly one leading '-' is removed |
| AgentQBlocks.SecondCopyDropped | AgentQ/agentq/prompt_utils.py:149-155 | a second copy of a command is dropped and the first keeps its place |
| AgentQBlocks.StatusIsFirstLine | AgentQ/agentq/prompt_utils.py:147 | the status is "" for an empty block, else the upper-cased block up to its first line break, so it holds no line break and no lower-case letter |
| AgentQCommands.WordAt | AgentQ/agentq/prompt_utils.py:165 | a literal matches at a position, ignoring case, exactly when it occurs there, and the match ends after it |
| AgentQCommands.NavigateAngle | AgentQ/agentq/prompt_utils.py:165-167 | a match of the angle-bracket form is a NAVIGATE command with no `by` |
| AgentQCommands.NavigatePlain | AgentQ/agentq/prompt_utils.py:169-171 | a match of the bracket form without angle brackets is a NAVIGATE command with no `by`; the command a written line of this form parses to is stated by ParseGotoPlain |
| AgentQCommands.NavigateUrl | AgentQ/agentq/prompt_utils.py:172-174 | a match of the bare http(s) address form is a NAVIGATE command with no `by`; the command a written line of this form parses to is stated by ParseGotoUrl |
| AgentQCommands.NavigateColon | AgentQ/agentq/prompt_utils.py:175-177 | a match of the colon form is a NAVIGATE command with no `by`; the command a written line of this form parses to is stated by ParseNavigateColon and ParseNavigatePlain |
| AgentQCommands.Search | AgentQ/agentq/prompt_utils.py:180-194 | a match of the bracket or colon form is a SEARCH command with no `by`; the command a written line of this form parses to is stated by ParseSearchColon, ParseSearchPlain and ParseSearchBracket |
| AgentQCommands.CollapseSpaces | AgentQ/agentq/prompt_utils.py:193 | the result has no run of two blanks, and a text starting with a non-blank keeps its first character |
| AgentQCommands.Click | AgentQ/agentq/prompt_utils.py:199-205 | a click carries no content, and a `by` only when it is the agentq id |
| AgentQCommands.ClickBracket | AgentQ/agentq/prompt_utils.py:197-205 | a match of the bracket form is a CLICK command, by agentq id when at all |
| AgentQCommands.ClickColon | AgentQ/agentq/prompt_utils.py:206-212 | a match of the colon form is a CLICK command, by agentq id when at all |
| AgentQCommands.TypeInto | AgentQ/agentq/prompt_utils.py:217-222 | a typing command carries the text as its content, and a `by` only when it is the agentq id |
| AgentQCommands.TypeBracket | AgentQ/agentq/prompt_utils.py:215-222 | a match of the two-bracket form is a TYPE command, by agentq id when at all; the command a written line of this form parses to is stated by ParseTypeBracket |
| AgentQCommands.TypeColon | AgentQ/agentq/prompt_utils.py:223-230 | a match of the `||` form is a TYPE command, by agentq id when at all; the command a written line of this form parses to is stated by ParseTypeColon |
| AgentQCommands.Submit | AgentQ/agentq/prompt_utils.py:233-235 | a match is a SUBMIT command by agentq id; the command a written line of this form parses to is stated by ParseSubmit |
| AgentQCommands.Clear | AgentQ/agentq/prompt_utils.py:236-238 | a match is a CLEAR command by agentq id; the command a written line of this form parses to is stated by ParseClear |
| AgentQCommands.ScrollBracket | AgentQ/agentq/prompt_utils.py:241-243 | a match of the bracket form scrolls "up" or "down", lower-cased |
| AgentQCommands.ScrollColon | AgentQ/agentq/prompt_utils.py:244-246 | a match of the colon form scrolls "up" or "down", lower-cased |
| AgentQCommands.GetDom | AgentQ/agentq/prompt_utils.py:249-250 | a match is a GET_DOM command with no `by` |
| AgentQCommands.Screenshot | AgentQ/agentq/prompt_utils.py:253-255 | a match is a SCREENSHOT command that always has a path; the command a written line of this form parses to is stated by ParseScreenshotPath and ScreenshotDefaultPath |
| AgentQCommands.Digits | AgentQ/agentq/prompt_utils.py:258-263 | a digit group is a non-empty run of digits |
| AgentQCommands.WaitColon | AgentQ/agentq/prompt_utils.py:258-260 | a match of the colon form waits for a digit string |
| AgentQCommands.WaitBracket | AgentQ/agentq/prompt_utils.py:261-263 | a match of the bracket form waits for a digit string; the command a written line of this form parses to is stated by ParseWaitBracket |
| AgentQCommands.AskUserHelp | AgentQ/agentq/prompt_utils.py:266-268 | a match is an ASK_USER_HELP command with no `by`; the command a written line of this form parses to is stated by ParseAskUserHelp |
| AgentQCommands.PatternKeepsPromise | AgentQ/agentq/prompt_utils.py:164-268 | each pattern, in order, yields only commands of its own kind with its own `by` rule |
| AgentQCommands.PatternInitial | AgentQ/agentq/prompt_utils.py:164-268 | no pattern matches a line that does not start with one of its letters in either case |
| AgentQCommands.ParseFirstMatchWins | AgentQ/agentq/prompt_utils.py:158-270 | the patterns are tried in the fixed order and the first that matches the stripped line gives the command, of that pattern's kind |
| AgentQCommands.ParseNoMatch | AgentQ/agentq/prompt_utils.py:270 | a line no pattern matches gives no command |
| AgentQCommands.ParseBlank | AgentQ/agentq/prompt_utils.py:160-162 | an empty or blank line gives no command |
| AgentQCommands.ParsedCommandShape | AgentQ/agentq/prompt_utils.py:158-270 | any parsed command has a known kind; a `by` is always the agentq id on an id kind; scrolls go up or down, waits are digit strings and screenshots have a path |
| AgentQCommands.ParseClickColon | AgentQ/agentq/prompt_utils.py:206-212 | the line `CLICK: t` clicks `t` |
| AgentQCommands.ClickColonById | AgentQ/agentq/prompt_utils.py:206-211 | the line `CLICK: ID=x` clicks `x` by agentq id |
| AgentQCommands.ClickById | AgentQ/agentq/prompt_utils.py:201-203 | a target written `ID=x` clicks `x` by agentq id |
| AgentQCommands.TypeById | AgentQ/agentq/prompt_utils.py:219-221 | a target written `ID=x` types into `x` by agentq id |
| AgentQCommands.ClickBySelector | AgentQ/agentq/prompt_utils.py:204-205 | any other target is clicked as a selector with no `by` |
| AgentQCommands.TypeBySelector | AgentQ/agentq/prompt_utils.py:222 | any other target is typed into as a selector with no `by` |
| AgentQCommands.ClickBracketIdHasNoBy | AgentQ/agentq/prompt_utils.py:197-205 | `CLICK [ID=x]` clicks `x` as a selector with no `by`, since the bracket pattern consumes the `ID=` itself |
| AgentQCommands.ParseGotoAngle | AgentQ/agentq/prompt_utils.py:165-167 | `GOTO [URL=<u>]` navigates to `u`, stripped |
| AgentQCommands.CleanQueryPlain | AgentQ/agentq/prompt_utils.py:188-193 | a query without tails, comments or double blanks is left as it is by the clean-up |
| AgentQCommands.ParseSearchColon | AgentQ/agentq/prompt_utils.py:180-194 | `SEARCH: q` searches for the cleaned-up query |
| AgentQCommands.ParseSearchPlain | AgentQ/agentq/prompt_utils.py:180-194 | `SEARCH: q` with a plain query searches for exactly `q` |
| AgentQCommands.ParseWait | AgentQ/agentq/prompt_utils.py:258-260 | `WAIT: n` waits for the numeral of `n` |
| AgentQCommands.DirectionLowered | AgentQ/agentq/prompt_utils.py:241-246 | UP or DOWN in any case is read as "up" or "down", and anything else is no direction |
| AgentQCommands.ScreenshotDefaultPath | AgentQ/agentq/prompt_utils.py:253-255 | a bare SCREENSHOT in any case saves to "screenshot.png" |
| AgentQCommands.ParseGotoPlain | AgentQ/agentq/prompt_utils.py:169-171 | `GOTO [URL=u]`, for an address with no `<`, `]` or blank, navigates to exactly `u` |
| AgentQCommands.ParseGotoUrl | AgentQ/agentq/prompt_utils.py:172-174 | `GOTO u`, for an `http://` or `https://` address with no blank, navigates to exactly `u`, the bracket forms failing first |
| AgentQCommands.ParseNavigateColon | AgentQ/agentq/prompt_utils.py:175-177 | `NAVIGATE: u` navigates to the rest of the line after the bracket and bare-address forms fail |
| AgentQCommands.ParseNavigatePlain | AgentQ/agentq/prompt_utils.py:175-177 | `NAVIGATE: u` with no blank at its ends navigates to exactly `u` |
| AgentQCommands.ParseSearchBracket | AgentQ/agentq/prompt_utils.py:180-194 | `SEARCH [q]` with a plain query that does not start `TEXT` searches for exactly `q` |
| AgentQCommands.ParseTypeBracket | AgentQ/agentq/prompt_utils.py:215-222 | `TYPE [t][x]` types exactly `x` into `t`, by agentq id when `t` is written `ID=y` |
| AgentQCommands.ParseTypeColon | AgentQ/agentq/prompt_utils.py:223-230 | `TYPE: t \|\| x` types exactly `x` into `t`, the bracket form failing first |
| AgentQCommands.ParseSubmit | AgentQ/agentq/prompt_utils.py:233-235 | `SUBMIT [ID=x]` submits `x` by agentq id, the search form failing first |
| AgentQCommands.ParseClear | AgentQ/agentq/prompt_utils.py:236-238 | `CLEAR [ID=x]` clears `x` by agentq id, both click forms failing first |
| AgentQCommands.ParseScreenshotPath | AgentQ/agentq/prompt_utils.py:253-255 | `SCREENSHOT [PATH=p]` saves the screenshot at exactly `p`, the search, submit and scroll forms failing first |
| AgentQCommands.ParseWaitBracket | AgentQ/agentq/prompt_utils.py:261-263 | `WAIT [SECONDS=n]` waits for the numeral of `n`, the colon form failing first |
| AgentQCommands.ParseAskUserHelp | AgentQ/agentq/prompt_utils.py:266-268 | `ASK USER HELP [TEXT=x]` asks exactly `x`, for a question with no `]` or newline |
| AgentQState.GraphState.constructor | AgentQ/agentq/state.py:100-128 | a new state has the question as its objective, loop count 0, not done, no error, at least three loops asked for and an empty scratchpad, with every other field unset |
| AgentQState.GraphState.AddToScratchpad | AgentQ/agentq/state.py:131-134 | exactly one entry is added at the end of the scratchpad and nothing else changes |
| AgentQState.GraphState.IncrementLoopCount | AgentQ/agentq/state.py:143-146 | the loop count grows by exactly one and nothing else changes |
| AgentQState.GraphState.AddError | AgentQ/agentq/state.py:149-153 | the error becomes the last error and the error count grows by one |
| AgentQState.GraphState.ClearError | AgentQ/agentq/state.py:155-158 | the last error is forgotten and the error count is left alone |
| AgentQState.Suffix | AgentQ/agentq/state.py:140 | Python's `s[i:]` is a suffix of the sequence, as long as the negative or non-negative index says |
| AgentQState.Bulleted | AgentQ/agentq/state.py:140 | each entry is put behind "- ", one for one |
| AgentQState.RecentAreLast | AgentQ/agentq/state.py:137-140 | a positive maximum keeps the last that many entries, or all of them when there are fewer |
| AgentQState.RecentZeroOrNegative | AgentQ/agentq/state.py:137-140 | a maximum of zero keeps the whole scratchpad, and a negative one drops that many entries from the front |
| AgentQState.SplitLinesOfJoin | AgentQ/agentq/state.py:140 | non-empty lines without line breaks joined with newlines split back into the same lines |
| AgentQState.ScratchpadTextLines | AgentQ/agentq/state.py:137-140 | the scratchpad text reads back line by line as the recent entries behind "- ", when no entry holds a line break |
| AgentQPrompt.ReadEntryOf | AgentQ/agentq/prompt_utils.py:72-106 | an entry stamped `[TAG-n] body` reads back as loop `n` and that body, a round trip |
| AgentQPrompt.ObservationKept | AgentQ/agentq/prompt_utils.py:90-94 | the observation entry holds the first 100 characters of the observation, or all of it when shorter, always followed by "..." |
| AgentQPrompt.ActionTextShape | AgentQ/agentq/prompt_utils.py:78-88 | the action entry starts with the command's type, and is only the type when the command has no target and no content |
| AgentQPrompt.CritiqueEntryStatus | AgentQ/agentq/prompt_utils.py:102-106 | the critique entry reads back with a body starting with COMPLETE exactly when the critique ended the run |
| AgentQPrompt.AddPlan | AgentQ/agentq/prompt_utils.py:66-70 | one `[PLAN]` entry is appended to the scratchpad |
| AgentQPrompt.AddThought | AgentQ/agentq/prompt_utils.py:72-76 | one thought entry stamped with the current loop count is appended |
| AgentQPrompt.AddAction | AgentQ/agentq/prompt_utils.py:78-88 | one action entry stamped with the current loop count is appended |
| AgentQPrompt.AddObservation | AgentQ/agentq/prompt_utils.py:90-94 | one observation entry stamped with the current loop count is appended |
| AgentQPrompt.AddExplanation | AgentQ/agentq/prompt_utils.py:96-100 | one explanation entry stamped with the current loop count is appended |
| AgentQPrompt.AddCritique | AgentQ/agentq/prompt_utils.py:102-107 | one critique entry stamped with the current loop count is appended |
| AgentQPrompt.ExtractAction | AgentQ/agentq/prompt_utils.py:272-281 | the method computes the action of the reply: the first command of a COMMANDS block, else the whole stripped reply as one command line |
| AgentQPrompt.FirstCommandDecides | AgentQ/agentq/prompt_utils.py:274-276 | a reply with commands acts on its first command and on nothing else |
| AgentQPrompt.ActionIsParsed | AgentQ/agentq/prompt_utils.py:272-281 | any action from a reply has a kind the command grammar knows, and a `by` only on an id kind |
| AgentQPrompt.BlankReplyNoAction | AgentQ/agentq/prompt_utils.py:277-281 | a blank reply asks for no action |
| AgentQPrompt.Score | AgentQ/agentq/prompt_utils.py:296-297 | a keyword score is at most the number of keywords |
| AgentQPrompt.CompleteBeatsContinue | AgentQ/agentq/prompt_utils.py:285-290 | COMPLETE in any case wins over CONTINUE when the reply holds both |
| AgentQPrompt.IncompleteReadsAsComplete | AgentQ/agentq/prompt_utils.py:287-288 | COMPLETE is found inside other words, so a reply calling the work incomplete still ends the run |
| AgentQPrompt.KeywordVote | AgentQ/agentq/prompt_utils.py:292-299 | with neither English word, the work is judged complete exactly when the completion keywords found strictly outnumber the continuation keywords found |
| AgentQPrompt.CritiqueIgnoresCase | AgentQ/agentq/prompt_utils.py:283-299 | the decision does not depend on the case of the reply's letters |
| AgentQNodes.ThoughtNode | AgentQ/agentq/nodes.py:50-101 | the loop count grows by one before the model is asked; on an answer the thought and the parsed action are stored and written to the scratchpad; on a failed call there is no action, the failure thought, and one more counted error |
| AgentQNodes.RecordThought | AgentQ/agentq/nodes.py:73-79 | the thought and the action are stored and written to the scratchpad, the action only when there is one |
| AgentQNodes.ThoughtEntriesStamped | AgentQ/agentq/nodes.py:77-79 | the entries read back as the thought and, exactly when there is an action, the action, both under the current loop |
| AgentQNodes.ActionNode | AgentQ/agentq/nodes.py:104-158 | with no action the fixed observation is recorded and no tool is called; otherwise the one action is handed to the tool, and a returned result updates the observation and page fields, a crash records the error; the observation is always written to the scratchpad |
| AgentQNodes.RecordToolResult | AgentQ/agentq/nodes.py:122-146 | after the tool returns, the observation and page fields are set from the result and a success clears the last error |
| AgentQNodes.ToolSuccess | AgentQ/agentq/nodes.py:123-136 | a successful call's observation starts with its message, and the stored page content is a prefix of the page's content of at most 500 characters |
| AgentQNodes.ToolFailure | AgentQ/agentq/nodes.py:137-138 | a failed call's observation is the failure prefix and its message, and the page fields stay as they were |
| AgentQNodes.ObservationStamped | AgentQ/agentq/nodes.py:141-142 | a short observation reads back whole from its entry under the current loop |
| AgentQNodes.CritiqueNode | AgentQ/agentq/nodes.py:196-259 | after an answer the decision is stored and written to the scratchpad; a failed call ends the run and counts one more error |
| AgentQNodes.Decide | AgentQ/agentq/nodes.py:213-233 | the step-by-step decision code computes the decision and critique text of the Critique rule |
| AgentQNodes.AnyOccurs | AgentQ/agentq/nodes.py:224 | the loop finds a word exactly when one of the words occurs in the text |
| AgentQNodes.LoopBudgetEndsRun | AgentQ/agentq/nodes.py:231-233 | once the loop budget is used up the run ends, whatever the reply, and the critique ends with the budget note |
| AgentQNodes.CritiqueDoneIff | AgentQ/agentq/nodes.py:213-237 | the run ends exactly when the reply says so, the OpenTable rule fires or the budget is used up, and the entry then says COMPLETE exactly when it ends |
| AgentQNodes.OpenTableCase | AgentQ/agentq/nodes.py:219-226 | the OpenTable rule reads the page content without case and never fires away from opentable.com |
| AgentQNodes.ShouldContinue | AgentQ/agentq/nodes.py:263-268 | the route is "end" exactly when done and "thought" exactly when not |
| AgentQNodes.CheckMaxLoops | AgentQ/agentq/nodes.py:271-275 | the route is "critique" exactly when the budget is used up and "action" exactly when it is not |
| AgentQNodes.BudgetRouteEnds | AgentQ/agentq/nodes.py:231-275 | a thought routed to critique by the budget ends the run there |
| AgentQAgent.MakeAction | AgentQ/agentq/models.py:21-26 | an action keeps its type, target and content and gets the default timeout of 5000 |
| AgentQAgent.AgentState.constructor | AgentQ/agentq/models.py:29-39 | a new agent state holds the input and the loop budget, with nothing planned, thought, done or counted yet |
| AgentQAgent.FirstRoundActs | AgentQ/agentq/agent.py:89-131 | the first round always acts, by searching, navigating or reading the page; it searches exactly when the plan is the search plan, and navigates only under the navigation plan |
| AgentQAgent.LaterRoundsRetryOnFailure | AgentQ/agentq/agent.py:132-141 | after the first round there is an action exactly when the previous round failed or observed nothing, and it is a screenshot |
| AgentQAgent.ContentLength | AgentQ/agentq/agent.py:166-167 | the length quoted for the page is the content's length, or 0 when there is none |
| AgentQAgent.FailedActionRetries | AgentQ/agentq/agent.py:134-182 | a failed action is reported with the failure prefix, explained as a problem, and makes the next round retry with a screenshot |
| AgentQAgent.SuccessEndsRun | AgentQ/agentq/agent.py:159-207 | a successful search or page read is reported with its completion marker and so ends the run in the same round |
| AgentQAgent.ExplanationNonEmpty | AgentQ/agentq/agent.py:175-190 | the explanation is never empty, so a finished run reports it rather than the default message |
| AgentQAgent.SegmentAfter | AgentQ/agentq/agent.py:223-225 | the second part of splitting on a keyword does not contain the keyword |
| AgentQAgent.SegmentIsSecondPart | AgentQ/agentq/agent.py:223-225 | splitting on a keyword that occurs gives at least two parts, the second being the text up to the next occurrence |
| AgentQAgent.RemoveAll | AgentQ/agentq/agent.py:227 | removing a word never lengthens the text, keeps only characters of the text, and removes every copy of a one-character word |
| AgentQAgent.RemoveAllNoop | AgentQ/agentq/agent.py:227 | text without the word is left as it is |
| AgentQAgent.Cleaned | AgentQ/agentq/agent.py:227 | a cleaned segment holds no '?' and no '.' |
| AgentQAgent.QueryFrom | AgentQ/agentq/agent.py:220-229 | a query found from a keyword is non-empty and holds no '?' and no '.' |
| AgentQAgent.QueryHasNoQuestionMark | AgentQ/agentq/agent.py:215-232 | the search query never holds a '?', whether a keyword gave it or the whole input did |
| AgentQAgent.FirstWhereAt | AgentQ/agentq/agent.py:220-229 | the keywords are tried in order and the first usable one is the one taken |
| AgentQAgent.FirstQuery | AgentQ/agentq/agent.py:220-229 | the keyword loop returns the cleaned segment of the first keyword, in the listed order, whose cleaned segment is not empty, or nothing |
| AgentQAgent.ExtractSearchQuery | AgentQ/agentq/agent.py:215-232 | the method computes the keyword's query, or else the whole input with '?' removed and stripped |
| AgentQAgent.AgentQ.constructor | AgentQ/agentq/agent.py:15-16 | a new agent has no state yet |
| AgentQAgent.AgentQ.PlanStep | AgentQ/agentq/agent.py:84-99 | the plan is the fixed plan chosen by the keywords of the lowered input |
| AgentQAgent.AgentQ.ThoughtStep | AgentQ/agentq/agent.py:101-145 | the thought and the action are those the round's rule gives for this loop, input and observation |
| AgentQAgent.AgentQ.ActionStep | AgentQ/agentq/agent.py:147-173 | with no action nothing is executed and the fixed observation is set; otherwise the action is executed exactly once and its result reported |
| AgentQAgent.AgentQ.ExplanationStep | AgentQ/agentq/agent.py:175-192 | the explanation is the one the observation and the action call for |
| AgentQAgent.AgentQ.CritiqueStep | AgentQ/agentq/agent.py:194-213 | the run is done exactly when a completion marker was observed, the second loop has been reached, or the round planned no action |
| AgentQAgent.AgentQ.Execute | AgentQ/agentq/agent.py:28-74 | the response succeeds exactly when the run is done, reporting the explanation, and otherwise reports the budget; the loop count never exceeds the budget or 2, a positive budget runs at least one round, and a budget of two or more always succeeds |
| AgentQAgent.AgentQ.RunRounds | AgentQ/agentq/agent.py:39-60 | the loop stops done or with its budget used up, after at most two rounds and never more than the budget |
| AgentQAgent.AgentQ.Round | AgentQ/agentq/agent.py:40-54 | one round counts one more loop and runs thought, action, explanation and critique, each reading what the previous one wrote |
| AgentQAgent.AgentQ.Act | AgentQ/agentq/agent.py:40-48 | the first half of a round counts the loop, chooses the action and executes it at most once |
| Seqs.Dedup | LASER/nodes.py:253 | `list(dict.fromkeys(...))` has no duplicates and holds exactly the elements of its input |
| Seqs.DedupPrefix | LASER/nodes.py:253 | appending elements keeps the first occurrences already seen, in their order, at the front |
| Seqs.SortDescStable | LASER/nodes.py:881 | the descending sort is stable: elements with equal keys keep their input order |
| Seqs.CountOccurrences | InferenceTimeTreeSearch/nodes.py:195 | the counting loop counts every element as often as it occurs, and its keys enter in first-occurrence order |
| Seqs.CountsInOrderTotal | InferenceTimeTreeSearch/nodes.py:195 | every candidate is counted exactly once: the counts add up to the number of candidates |
| Text.Strip | AgentQ/agentq/prompt_utils.py:162 | a stripped text neither starts nor ends with whitespace and is no longer than its input |
| Text.StripIdempotent | AgentQ/agentq/prompt_utils.py:162 | stripping twice is stripping once |
| Text.SplitLines | AgentQ/agentq/prompt_utils.py:140 | no line holds a line break, and only the empty text has no lines |
| Text.JoinSplit | AgentQ/agentq/agent.py:223 | the pieces of a split joined back with the separator give the text, a round trip |
| Seqs.SortDesc | LASER/nodes.py:881 | `sorted(..., reverse=True)` is a permutation of its input, ordered by non-increasing key |
| Seqs.TopByKey | InferenceTimeTreeSearch/nodes.py:197 | the first k of a descending sort of distinct elements are min(k, n) distinct elements in key order, and no element left out has a larger key than the last kept |
| Text.Lower | LASER/nodes.py:54 | lower-casing keeps the length and lower-cases each character |
| Text.Words | LASER/nodes.py:326 | `s.split()` gives non-empty words without whitespace |
| Text.SplitJoin | AgentQ/agentq/state.py:140 | pieces without a one-character separator, joined with it, split back into the same pieces, a round trip |

## Left out

- Language models, the browser, WebShop's HTTP server, Wikipedia and Bing are not modelled. Each call is a parameter: a reply string, a `Result` for a call that may raise, or a function from the request to the answer.
- Prompt wording (the `prompt.py` modules and the prompt builders' templates): the instruction text is a parameter wherever a prompt is assembled. Only the parts that decide behaviour are modelled: the stage cue, the scratchpad and the truncation.
- `clean_response` (AgentQ/agentq/prompt_utils.py:302) is a parameter of the AgentQ nodes, because it only tidies the text that is shown.
- Token counting: the tokenizer is an optional function parameter. `None` stands for tiktoken being unavailable, in which case the scratchpad is left unshortened.
- `str.lower`, `str.upper` and `str.title` act on ASCII letters only; other scripts have no case here. Korean literals are written as code points.
- Regular expressions are not modelled as a general engine. Each pattern that a modelled member applies gets its own matcher, and a greedy or lazy run with backtracking is a search over the run's end. One pattern is not matched at all: the item title and price regex of LASER/nodes.py:96 and LASER/nodes.py:167 is the `titlePrice` parameter of the LASER item micro-agent, an oracle.
- Character classes are ASCII where Python 3's are Unicode. `\w` is ASCII letters, digits and `_`, and `\d` is `0`-`9`, whereas Python also accepts other letters and digits. This affects LaserParsing.ButtonIdMatch, the price phrase of LaserParsing.ParseTargetInstruction, the page and result counts, the AgentQ WAIT digits and KnowTools' `\w+` action name. `re.IGNORECASE`/`re.I` folds ASCII letters only (AgentQCommands.WordAt and the price phrase), so Python's extra folds, such as `ſ` with `s` and the Kelvin sign with `k`, are not modelled. `\s` (Text.IsSpace) is the full Unicode whitespace class.
- Floating point: prices and scores are reals, and IEEE rounding is not modelled.
- Json.Render: Python's `str()` of a float, a list or a dict is not modelled; each renders as the placeholder `<float>`, `<list>` or `<dict>`. Float `repr` is a shortest round-trip decimal of an IEEE double, and a dict's text depends on its insertion order, which a Dafny `map` does not keep. So a tool argument, a predicted action, an info or observation field or search keywords of those types give a different string than in Python. This affects LaserTools.ActionString, LaserFeedback.ActionRepr, LaserNodes.InfoText, LaserNodes.ObsText, LaserNodes.KeywordsArg and LaserReplay.FormatAction.
- LaserReplay.IndexSessions: the index is keyed by the integer that `reset(session_id)` compares with (LaserReplay.SessionKey), not by the Python key itself. An id that no integer equals (a string, `None`, a fractional float) is checked for hashability but then is not kept, because `reset` takes an `int` and can never find it. Ids that are equal in Python (`1`, `1.0`, `True`) share one key, and the later episode wins, as in the dict comprehension.
- Async scheduling, `asyncio.sleep`, `print` and logging are left out. The coroutines are sequential steps.
- LangGraph compile and invoke: only the routing functions, the edge tables and the initial states are modelled. Each node updates one shared state object; the graph's copy-and-merge of returned dictionaries is not modelled.
- InferenceTimeTreeSearch/graph.py is wiring only, and it is not part of this model.
- TreeSearch.Frontier: a plain sequence with a first-minimum pop stands in for the binary heap. The heap's internal layout is not modelled, nor its order among equal scores.
- InferenceTimeTreeSearch/nodes.py:273-296 cannot be reached (it follows a `return`), so it is not modelled.
- ReplayLogger: the file write in `end_session` and `load_replay_session` are file I/O, left out. Timestamps are parameters.
- LASER's item node: the path taken when the micro-agent flag is off (LASER/nodes.py:737-845) is dead code, because the flag is fixed to true. The entry decision of `choose_next_action` (LASER/nodes.py:728) is thrown away, but its feedback stage's rethink record is kept, as LaserNodes.NodeItemSpace states.
- `get_feedback_from_manager`, the model calls inside `choose_next_action` and the scoring prompts in LASER are language-model calls; only their results, as parameters, are modelled. The feedback stage of `choose_next_action` (LASER/nodes.py:525-542), which decides whether to rethink and appends the rethink record, is modelled by LaserNodes.Choose. Its exception fallback (LASER/nodes.py:544-546) is one of the decisions the parameter may return.
- LASER's memory buffer sorts by a numeric key; a key that is not a number reads as -1.
- `selected_item_id` is not kept in the LASER graph state, because the state's schema has no such key.
- LaserReplay: `_normalize_trajectory` is modelled on values. The in-place update of the input step dictionaries is not modelled, because no caller reads them afterwards.
- The JSON load in `OfflineWebshopEnv.__init__` is file I/O; the trajectory is a constructor argument.
- KnowAgent's network tools: only the empty-input guards of `wikipedia_retrieve` and `web_search` are modelled. The fetch and the search are oracles.
- KnowNodes.NodeDecide does not apply the `(fallback)` and `(guard)` replacements of an empty action path (KnowAgent/nodes.py:111, KnowAgent/nodes.py:138). They happen after the scratchpad line was written, and the value is never stored in the state.
- AgentQ's `plan_node` and `explanation_node` call the model and only store its cleaned answer, so they are not modelled.
- AgentQ's state fields `start_time`, `messages`, `critic_scores`, `q_stats` and `last_progress_fingerprint` are not kept: the clock is left out, and no modelled code reads the others (`last_progress_fingerprint` is only declared and set to None, AgentQ/agentq/state.py:74 and 121).
- ScratchpadManager's `action.get('type', 'UNKNOWN')` default cannot arise, because a parsed command always has a type.
- AgentQAgent.AgentQ.Execute takes the loop budget as a parameter; the source always uses the default of 5.
- AgentQAgent.AgentQ.Execute does not model the outer exception handler (AgentQ/agentq/agent.py:76-82), because the modelled steps raise nothing.
- AgentQAgent.AgentQ.ActionStep treats `execute_action` and `extract_text_content` as functions of the action alone, with no browser state between calls.
- KnowGraph.Config does not model the error LangGraph raises when a run hits the recursion limit; only the limit's value is stated.
