# Policy enforcer: a verified model of its core

This project models the policy core of the policy-enforcer agent in Dafny and proves properties of it. The core has these parts:

- **Item catalogue.** There are five items (TV, Xbox, Hiking Boots, Goggles, Sunscreen). Each activity has a fixed list of required items. Item names are validated by exact match, and a "missing items" list is computed in requirement order. (`items.dfy`, module `Items`)
- **World state.** An `AgentState` object holds:
  - the inventory set;
  - the weather and whether it has been checked;
  - the chosen activity;
  - the append-only shopping history.

  Small setter methods update it in place. (`state.dfy`, module `State`)
- **Business rules.** There are seven stateless rules over a snapshot of the state. The `RuleEngine` reports the first denial among the six activity rules, in list order. It also runs the one tool rule, which forbids checking a known weather again. (`rules.dfy`, module `Rules`)
- **Policy-enforced tools.** There are two variants:
  - The Semantic-Kernel plugins validate their input, consult the rules, then make at most one change to the state and report it. (`sk_tools.dfy`, module `SkTools`)
  - The LangChain tools consult the rules first and then execute. The activity string is validated only during execution. (`tools.dfy`, module `Tools`)
- **The ReAct loop.** This part covers:
  - the line-prefix reply parser, with its JSON fallback;
  - dotted action-name resolution;
  - the iteration-bounded loop that grows the chat history.

  (`react_agent.dfy`, module `ReactAgent`)

`text.dfy` (module `Text`) models the Python built-ins the core relies on: `str.strip` (using the full `str.isspace` set), `str.split` on one character, `str.join`, `str.startswith`, `str(int)`, and `sorted` over a set of strings (code-point order).

Every mutating operation is a method of a class or receives the state object. Each one is proved against a specification function on value snapshots:
- `AgentState.View()` gives a snapshot of the state;
- `ActivityVerdict` and `ToolVerdict` specify the engine's answers;
- `ParseLines` specifies the reply parser;
- `Turn` and `RunFrom` specify the loop.

The properties the source promises are lemmas about those functions.

The reasoning model, the kernel's function table and invocation, and `json.loads` are oracles held in an `Env` value. The random weather pick is a nondeterministic choice among sunny, raining and snowing.

Behaviour worth noting:
- **Camping in the rain without boots.** The reason given is the missing boots, not the rain. The equipment rule comes before the weather rule in the engine's list (policy_enforcer/rules/__init__.py:205-214). The rain reason appears only when the boots are held. That is the case tests/unit/test_rules.py:78-89 checks (`Rules.GoCampingVerdict`, `Rules.RainBlocksCamping`).
- **Item matching.** Item names and activity strings are matched exactly, so case matters. `add_to_inventory` stores a name as given (`Items.ValidationIsCaseSensitive`, `State.AgentState.AddToInventory`). The repository's tests expect case-insensitive handling, which the code does not do:
  - tests/unit/test_state.py:34-41 and tests/unit/test_tools.py:38-45 expect "tv" to be stored as "TV";
  - tests/unit/test_items.py:21-35 calls `normalize_item_name`, which policy_enforcer/items.py does not define.
- **Ambiguous function names.** An undotted action name that several plugins define resolves to the plugin of the first matching function in the kernel's metadata (policy_enforcer/react_agent.py:320-324). It is not rejected (`ReactAgent.FirstNamed`, `ReactAgent.Resolve`).
- **Tool failures.** A tool failure does not end the run. `_execute_action` turns it into the observation text (policy_enforcer/react_agent.py:342-343), and the loop continues (`ReactAgent.ToolFailureIsObserved`). Only an exception from the reasoning model ends the run with an error (`ReactAgent.ModelErrorEndsRun`).
- **Empty reply.** A reply with no messages ends the run at once with the maximum-iterations message, even with budget left (policy_enforcer/react_agent.py:208-209, 253; `ReactAgent.EmptyReplyEndsRun`).
- **Empty final answer.** An empty `Final Answer:` line does not end the run, because `if final_answer:` tests for truthiness (policy_enforcer/react_agent.py:219; `ReactAgent.Turn`).
- **Mis-encoded marks.** In the ReAct loop the error and success marks are stored with the wrong encoding (a cross mark read as Mac Roman). The model keeps those exact characters. The plugins and tools use the real cross mark U+274C.
- **Line breaks in item names.** The LangChain shopping tool stores any name. A name holding a line break therefore forges extra lines in `get_summary`'s text (`State.NewlineInItemForgesLine`).

## Model

| member | source | states |
|---|---|---|
| Text.Strip | policy_enforcer/react_agent.py:278-281 | The result is empty or neither begins nor ends with whitespace, and is no longer than the input |
| Text.StripIsSlice | policy_enforcer/react_agent.py:278-281 | `strip` removes only whitespace, and only at the two ends: the result is a slice `s[i..j]` with only whitespace outside it |
| Text.Split | policy_enforcer/react_agent.py:278 | Splitting always yields at least one piece |
| Text.SplitJoin | policy_enforcer/react_agent.py:278 | No piece contains the separator, and joining the pieces with it gives back the text |
| Text.SplitCons | policy_enforcer/react_agent.py:278 | Text made of a separator-free piece, the separator and a rest splits into that piece followed by the split of the rest |
| Text.SplitOfJoin | policy_enforcer/state/__init__.py:84 | Pieces free of the separator, joined with it, split back into the same pieces. This is the inverse of `SplitJoin` |
| Text.Join | policy_enforcer/sk_tools.py:114 | Joining nothing is empty, one piece is itself, and the result starts with the first piece. Its meaning is fixed by `SplitOfJoin` and `SplitJoin` |
| Text.JoinAvoids | policy_enforcer/state/__init__.py:79 | A character in neither the pieces nor the separator is not in the joined text |
| Text.StartsWith | policy_enforcer/react_agent.py:283-294 | `str.startswith`, defined as: the first `|p|` characters are `p` (no contract of its own) |
| Text.StrLe | policy_enforcer/sk_tools.py:114 | Python's `<=` on strings, code point by code point with a prefix first (no contract of its own). `StrLeTotal`, `StrLeAntisymmetric` and `StrLeTransitive` prove it a total order |
| Text.NatToString | policy_enforcer/rules/__init__.py:243 | `str(i)` in the rule summary's f-string, and `iteration_num + 1` in the error message at policy_enforcer/react_agent.py:248: decimal digits only, at least one, no leading zero |
| Text.DecimalValue | policy_enforcer/rules/__init__.py:243 | The number a digit string denotes, most significant digit first (no contract of its own) |
| Text.NatToStringValue | policy_enforcer/rules/__init__.py:243 | `str(n)` reads back as `n`, so the rule numbers in the summary and the iteration number in the error message are the true numbers |
| Text.SortedListing | policy_enforcer/sk_tools.py:114 | `sorted(set)` returns the unique strictly increasing listing of the set |
| Text.SortedListingExists | policy_enforcer/sk_tools.py:114 | Every finite set of strings has a strictly sorted listing |
| Text.SortedListingUnique | policy_enforcer/sk_tools.py:114 | Two strictly sorted listings of the same set are equal |
| Items.GetRequirementsForActivity | policy_enforcer/items.py:37-49 | Gear is required exactly for the three activity strings, without repeats, and Sunscreen is never required |
| Items.RequirementsTable | policy_enforcer/items.py:33-49 | "Play games" requires [TV, Xbox], "Go Camping" requires [Hiking Boots], "Swimming" requires [Goggles], and any other string requires nothing |
| Items.MissingFrom | policy_enforcer/items.py:55 | The filtered list is a subsequence of the requirements, in their order. It holds exactly the required items the user lacks, is empty iff all are owned, and with nothing owned is the whole list |
| Items.GetMissingItems | policy_enforcer/items.py:51-55 | Same properties for an activity's requirements, and empty for any unrecognised activity |
| Items.MissingGamingGear | policy_enforcer/items.py:51-55 | The missing gaming gear, in TV-then-Xbox order, for each ownership combination |
| Items.ItemOf | policy_enforcer/items.py:57-64 | `Item(name)` finds the member whose value is exactly `name`, or none exists |
| Items.IsValidItem | policy_enforcer/items.py:57-64 | A name is valid iff it is among the catalogue values `get_all_items()` lists |
| Items.ValidItemsAreTheCatalogue | policy_enforcer/items.py:57-69 | A name is valid iff it equals some item's value iff it is in `get_all_items()` |
| Items.ValidationIsCaseSensitive | policy_enforcer/items.py:57-64 | "tv", "XBOX" and "hiking boots" are invalid, while the exact spellings are valid |
| Items.Values | policy_enforcer/items.py:69 | One value per item, position by position |
| Items.CatalogueValues | policy_enforcer/items.py:66-69 | A string is among the catalogue values iff it names an item |
| Items.GetAllItems | policy_enforcer/items.py:66-69 | Five distinct names, exactly the valid item names |
| Items.AllItemsInOrder | policy_enforcer/items.py:9-27 | The names are TV, Xbox, Hiking Boots, Goggles, Sunscreen, in declaration order |
| State.ActivityOf | policy_enforcer/state/__init__.py:18-22 | `Activity(s)` finds the member whose value is exactly `s`, or none exists |
| State.ActivityOfValue | policy_enforcer/state/__init__.py:18-22 | Looking up an activity's value gives that activity back |
| State.AgentState.constructor | policy_enforcer/state/__init__.py:31-42 | A new state has an empty inventory, unknown and unchecked weather, no activity and no history |
| State.AgentState.AddToInventory | policy_enforcer/state/__init__.py:44-47 | Inventory becomes old ∪ {item} and history becomes old ++ [item], with no validation. A duplicate leaves the set alone but still grows the history. Weather and activity are untouched |
| State.AgentState.HasItem | policy_enforcer/state/__init__.py:49-51 | Exact membership of the name in the inventory, with no case folding (no contract of its own). `AddToInventory` guarantees `HasItem` of the added name |
| State.AgentState.HasItems | policy_enforcer/state/__init__.py:53-55 | True iff every listed item is owned, so true for an empty list |
| State.AgentState.SetWeather | policy_enforcer/state/__init__.py:57-60 | Sets the weather and marks it checked, changing nothing else, so a known weather is always checked afterwards |
| State.AgentState.SetActivity | policy_enforcer/state/__init__.py:62-64 | Only the chosen activity changes, and it may overwrite an earlier choice |
| State.AgentState.SummaryLines | policy_enforcer/state/__init__.py:76-84 | "Inventory: Empty" for an empty inventory, and otherwise the names joined with ", ". Then the weather and checked lines, and the activity line only when one is set |
| State.AgentState.ActivityLineIffChosen | policy_enforcer/state/__init__.py:82-83 | A line starting "Chosen activity:" appears iff an activity is set |
| State.AgentState.GetSummary | policy_enforcer/state/__init__.py:76-84 | The summary starts with its inventory line |
| State.SummarySplitsIntoLines | policy_enforcer/state/__init__.py:76-84 | With no line break in any inventory name, the printed summary splits back into exactly its lines. It therefore shows a "Chosen activity:" line iff an activity is set |
| State.SummaryLinesUnbroken | policy_enforcer/state/__init__.py:78-83 | No summary line holds a line break when no inventory name does |
| State.NewlineInItemForgesLine | policy_enforcer/state/__init__.py:79 | An inventory name "a\nChosen activity: …" makes the second printed line a "Chosen activity:" line with no activity set |
| State.EmptyInventoryLineAmbiguous | policy_enforcer/state/__init__.py:79 | An inventory holding only an item named "Empty" prints the same line as an empty one |
| State.ResetState | policy_enforcer/state/__init__.py:96-99 | Reset yields a fresh state with every field at its default |
| Rules.CheckPlayGames | policy_enforcer/rules/__init__.py:49-63 | Denies exactly "Play games" without both TV and Xbox, with the missing names comma-joined in the reason |
| Rules.CheckCampingEquipment | policy_enforcer/rules/__init__.py:75-87 | Denies exactly "Go Camping" without Hiking Boots, with the fixed reason |
| Rules.CheckSwimmingEquipment | policy_enforcer/rules/__init__.py:99-111 | Denies exactly "Swimming" without Goggles, with the fixed reason |
| Rules.CheckCampingWeather | policy_enforcer/rules/__init__.py:123-133 | Denies exactly camping when it is raining ("…because it's raining") |
| Rules.CheckSwimmingWeather | policy_enforcer/rules/__init__.py:145-155 | Denies exactly swimming when it is snowing ("…because it's snowing") |
| Rules.CheckUnknownWeather | policy_enforcer/rules/__init__.py:167-177 | Under unknown weather, denies everything except "Play games", including unrecognised strings |
| Rules.CheckWeatherCheck | policy_enforcer/rules/__init__.py:189-199 | Denies iff the tool is "check_weather" and the weather is checked and known |
| Rules.Check | policy_enforcer/rules/__init__.py:13-16 | Every rule yields either allowed with no reason or denied with a non-empty reason |
| Rules.RulesIgnoreOtherActivities | policy_enforcer/rules/__init__.py:49-155 | Each equipment or weather rule allows every activity except its own target |
| Rules.FirstActivityDenial | policy_enforcer/rules/__init__.py:216-224 | The scan's result is always well formed |
| Rules.FirstToolDenial | policy_enforcer/rules/__init__.py:226-233 | The scan's result is always well formed |
| Rules.DenialAt | policy_enforcer/rules/__init__.py:216-224 | One step of the scan: the rule at position i, if it is an activity rule that denies, else the rest of the list |
| Rules.UnrolledWeatherRules | policy_enforcer/rules/__init__.py:205-224 | The last four rules act as rain, then snow, then unknown weather. The Weather Check rule is skipped |
| Rules.ActivityVerdictUnrolled | policy_enforcer/rules/__init__.py:205-224 | The engine's verdict is the first denial among the six activity rules, in list order |
| Rules.PlayGamesVerdict | policy_enforcer/rules/__init__.py:216-224 | "Play games" is allowed under every weather iff TV and Xbox are held. Otherwise the reason lists the missing gear |
| Rules.GoCampingVerdict | policy_enforcer/rules/__init__.py:216-224 | Camping reports missing boots first, then rain, then unknown weather |
| Rules.SwimmingVerdict | policy_enforcer/rules/__init__.py:216-224 | Swimming reports missing goggles first, then snow, then unknown weather |
| Rules.UnrecognisedActivityVerdict | policy_enforcer/rules/__init__.py:167-177 | An unrecognised activity is denied while the weather is unknown and allowed once it is known |
| Rules.RainBlocksCamping | policy_enforcer/rules/__init__.py:123-133 | Camping in the rain is always denied. Rain is the reason given iff the boots are held |
| Rules.GearReportedBeforeUnknownWeather | policy_enforcer/rules/__init__.py:216-224 | With no gear and unknown weather, "Play games" is denied for the missing TV and Xbox |
| Rules.BothGamingItemsReason | policy_enforcer/rules/__init__.py:59-63 | The reason when both gaming items are missing is "…Missing required items: TV, Xbox" |
| Rules.ToolVerdictCases | policy_enforcer/rules/__init__.py:226-233 | The tool rules deny only "check_weather" on a checked, known weather, with the fixed reason |
| Rules.RuleEngine.CheckActivityRules | policy_enforcer/rules/__init__.py:216-224 | The loop returns the engine's activity verdict |
| Rules.RuleEngine.CheckToolRules | policy_enforcer/rules/__init__.py:226-233 | The loop returns the engine's tool verdict |
| Rules.RuleEngine.GetRuleDescriptions | policy_enforcer/rules/__init__.py:235-237 | One description per rule, in list order |
| Rules.RuleEngine.DescriptionsInSummary | policy_enforcer/rules/__init__.py:235-244 | Summary line k carries rule k's description |
| Rules.RuleEngine.GetRulesSummary | policy_enforcer/rules/__init__.py:239-244 | The `+=` loop produces the header followed by one numbered line per rule |
| Rules.RuleLine | policy_enforcer/rules/__init__.py:243 | The line is "n. " + description + newline |
| Rules.Concat | policy_enforcer/rules/__init__.py:241-244 | `"".join(lines)`, the text the `+=` loop accumulates (no contract of its own). `ConcatAppend` and `ConcatAt` carry its properties |
| Rules.ConcatAppend | policy_enforcer/rules/__init__.py:242-244 | Appending one more piece extends the concatenation by exactly that piece |
| Rules.ConcatAt | policy_enforcer/rules/__init__.py:242-244 | A concatenation is the pieces before k, then piece k, then the pieces after |
| Rules.NumberedLines | policy_enforcer/rules/__init__.py:242-244 | One line per rule, numbered from 1 |
| Rules.SummaryListsRule | policy_enforcer/rules/__init__.py:239-244 | Each rule's line sits after the lines of the rules before it |
| SkTools.Violation | policy_enforcer/sk_tools.py:62 | The message is the violation prefix followed by exactly the reason |
| SkTools.InventoryListing | policy_enforcer/sk_tools.py:114 | "Empty" for an empty inventory. The text is empty exactly when the inventory holds only the empty name |
| SkTools.InventoryListingIsSortedJoin | policy_enforcer/sk_tools.py:114 | A non-empty inventory prints as its strictly ascending enumeration joined with ", " |
| SkTools.ActivityChoicesText | policy_enforcer/sk_tools.py:133-135 | The invalid-activity message lists "Play games, Go Camping, Swimming" |
| SkTools.ActivityValuesMembership | policy_enforcer/sk_tools.py:133-134 | A string is among the activity values iff it names an activity |
| SkTools.CheckToolRules | policy_enforcer/sk_tools.py:26-36 | Returns a reason iff the tool is "check_weather" on a checked, known weather |
| SkTools.CheckActivityRules | policy_enforcer/sk_tools.py:38-47 | Returns no reason iff the engine allows the activity. Otherwise returns its non-empty reason |
| SkTools.InventoryText | policy_enforcer/sk_tools.py:114 | The sorted, comma-joined inventory, or "Empty" |
| SkTools.CheckWeather | policy_enforcer/sk_tools.py:57-79 | A known weather is refused with the violation and nothing changes. Otherwise the weather becomes sunny, raining or snowing and is marked checked, nothing else changes, and "Weather check complete" is reported |
| SkTools.Shopping | policy_enforcer/sk_tools.py:89-114 | An empty or invalid item gets an error message and nothing changes. A valid item is added and logged, and the message lists the sorted inventory |
| SkTools.ChooseActivity | policy_enforcer/sk_tools.py:124-155 | An empty or unknown string is rejected before any rule runs. A rule denial gives the violation and nothing changes. Otherwise only the chosen activity changes |
| SkTools.StateReportLines | policy_enforcer/sk_tools.py:170-173 | The four report lines. The last reads "None chosen" iff no activity is set |
| SkTools.NoActivityIsCalledNoneChosen | policy_enforcer/sk_tools.py:173 | No activity's name prints as "None chosen" |
| SkTools.CheckState | policy_enforcer/sk_tools.py:165-173 | The report is a function of the state alone, and the state is unchanged |
| Tools.GetTools | policy_enforcer/tools/__init__.py:134-140 | Three tools with distinct names, every tool present, weather first |
| Tools.ToolNames | policy_enforcer/tools/__init__.py:134-140 | The names are check_weather, shopping and choose_activity, in that order |
| Tools.OnlyWeatherToolIsRestricted | policy_enforcer/tools/__init__.py:32-42 | A tool is refused by the tool rules iff it is the weather tool on a checked, known weather |
| Tools.CheckRules | policy_enforcer/tools/__init__.py:102-117 | Tool rules first. Then, for the activity tool only, the activity rules, whose reason is returned |
| Tools.Execute | policy_enforcer/tools/__init__.py:65-131 | Weather is drawn and marked checked. Shopping adds the item with no validation. The activity is recorded only if it names an activity, and otherwise the choices are listed |
| Tools.Run | policy_enforcer/tools/__init__.py:44-51 | On a violation, the violation message is returned and nothing changes. Otherwise the result is exactly what `execute` does |
| Tools.CheckWeatherTwice | policy_enforcer/tools/__init__.py:44-75 | A second weather check after a successful one is refused |
| Tools.UnknownActivityUnderUnknownWeather | policy_enforcer/tools/__init__.py:102-125 | Under unknown weather, an unrecognised activity gets the rule violation from the tool but the invalid-activity message from the plugin. Neither records a choice |
| ReactAgent.TagsExclusive | policy_enforcer/react_agent.py:283-294 | A line carries at most one tag, and "Action Input:" never matches "Action:" |
| ReactAgent.ParseInput | policy_enforcer/react_agent.py:288-293 | Empty text gives {}, undecodable text gives {"input": text}, otherwise the decoded value. The result is null only for a decoded null |
| ReactAgent.ApplyLine | policy_enforcer/react_agent.py:281-293 | A tag line overwrites its own field and nothing else. Other lines change nothing |
| ReactAgent.ParseReply | policy_enforcer/react_agent.py:278-297 | The reply is stripped, split at line breaks and parsed line by line (no contract of its own; see `ParseLines`) |
| ReactAgent.ParseLines | policy_enforcer/react_agent.py:280-297 | A final answer is returned iff some line is a final-answer line. The observation is never touched |
| ReactAgent.ParseLinesAppend | policy_enforcer/react_agent.py:280-297 | Parsing a concatenation stops in the first part if it holds a final answer, so later lines are never read |
| ReactAgent.FirstFinalAnswerWins | policy_enforcer/react_agent.py:294-295 | The first final-answer line gives the answer, and the fields are those the lines before it left |
| ReactAgent.FinalIgnoresFields | policy_enforcer/react_agent.py:280-297 | Whether and which final answer is found does not depend on the fields carried in |
| ReactAgent.LaterThoughtWins | policy_enforcer/react_agent.py:283-284 | Of two thought lines, the later one is kept |
| ReactAgent.FirstNamed | policy_enforcer/react_agent.py:320-324 | The index of the first function with that name, or none exists |
| ReactAgent.Resolve | policy_enforcer/react_agent.py:312-324 | A dotted name splits at the first '.' into a dot-free plugin and the rest. An undotted name keeps itself as the function name and takes the plugin of the function `FirstNamed` finds, or "" when none carries the name |
| ReactAgent.ResolvesToFirstMatch | policy_enforcer/react_agent.py:320-324 | When several functions carry an undotted name, the plugin of the earliest one is taken, whatever later ones belong to |
| ReactAgent.ActionObservation | policy_enforcer/react_agent.py:310-343 | Every outcome of `_execute_action`: no plugin gives "Could not find plugin"; a lookup that finds nothing gives "Function not found"; a lookup that raises, a non-object input and an invocation that raises each give the error message with that text; a run with no value gives the done mark; a run with a value gives that value |
| ReactAgent.EmptyPluginNotRun | policy_enforcer/react_agent.py:312-327 | A name starting with '.' names the empty plugin and never runs |
| ReactAgent.UnknownFunctionNotRun | policy_enforcer/react_agent.py:314-327 | An undotted name matching no function gives "Could not find plugin for function: …" |
| ReactAgent.Turn | policy_enforcer/react_agent.py:197-251 | Covers every way a turn can end. A model exception ends the run with "Error in iteration n+1". An empty reply ends it with the budget message. A finished turn has a non-empty answer. A continued turn strictly extends the history and runs at most one action |
| ReactAgent.Proceed | policy_enforcer/react_agent.py:223-245 | An action runs iff one with an input was parsed. If so, the history gains exactly the reply and "Observation: …", and the next turn starts from empty fields. Otherwise it gains exactly the reply, and the fields carry over |
| ReactAgent.ToolFailureIsObserved | policy_enforcer/react_agent.py:223-245 | A tool that raises gives an error observation, and the run continues from fresh fields |
| ReactAgent.RunFrom | policy_enforcer/react_agent.py:193-253 | At most the budgeted number of turns, with the budget message when it is spent. The history only grows. Each turn runs at most one action, and the answer is non-empty |
| ReactAgent.Run | policy_enforcer/react_agent.py:184-253 | The history starts with "Question: q". Turns are at most `max(0, max_iterations)`, and actions are at most turns |
| ReactAgent.ModelErrorEndsRun | policy_enforcer/react_agent.py:247-251 | A model exception on any turn n within the budget ends the run with "Error in iteration n+1" and the history unchanged |
| ReactAgent.EmptyReplyEndsRun | policy_enforcer/react_agent.py:208-209 | An empty reply ends the run at once with the maximum-iterations message and the history unchanged |
| ReactAgent.FinalAnswerEndsRun | policy_enforcer/react_agent.py:217-222 | A non-empty final answer is returned, and the history is left as it was |
| ReactAgent.ProceedingTurnContinuesRun | policy_enforcer/react_agent.py:223-245 | A reply without a final answer hands the run to the next turn with `Proceed`'s history, fields and action count |
| ReactAgent.NoAnswerExhaustsBudget | policy_enforcer/react_agent.py:193-253 | A model that never answers uses up exactly the budget and gets the maximum-iterations message |
| ReactAgent.FirstTurnError | policy_enforcer/react_agent.py:247-251 | An exception on the first turn ends the run with "Error in iteration 1", and the history holds only the question |
| ReactAgent.ReActIteration.constructor | policy_enforcer/react_agent.py:32-42 | Empty thought, action and observation, and an empty-dict input |
| ReactAgent.ReActIteration.SetThought | policy_enforcer/react_agent.py:284 | Only the thought changes |
| ReactAgent.ReActIteration.SetAction | policy_enforcer/react_agent.py:286 | Only the action changes |
| ReactAgent.ReActIteration.SetActionInput | policy_enforcer/react_agent.py:290-293 | Only the action input changes |
| ReactAgent.ReActAgent.constructor | policy_enforcer/react_agent.py:58-100 | Stores the name and budget, and starts with an empty history |
| ReactAgent.ReActAgent.ParseResponse | policy_enforcer/react_agent.py:267-297 | The fields and the result are exactly what the line-by-line parse specifies |
| ReactAgent.ReActAgent.ReadLines | policy_enforcer/react_agent.py:280-297 | The loop over the lines matches the parse specification |
| ReactAgent.ReActAgent.ReadLine | policy_enforcer/react_agent.py:281-295 | A final-answer line returns its text and changes nothing. Any other line updates its field |
| ReactAgent.ReActAgent.ExecuteAction | policy_enforcer/react_agent.py:299-343 | The observation is exactly the specified one, and every failure becomes a message |
| ReactAgent.ReActAgent.TakeTurn | policy_enforcer/react_agent.py:197-251 | One loop turn behaves exactly as the turn specification |
| ReactAgent.ReActAgent.RecordReply | policy_enforcer/react_agent.py:223-245 | Recording the reply and running the action changes the history and the iteration exactly as `Proceed` specifies |
| ReactAgent.ReActAgent.RunAsync | policy_enforcer/react_agent.py:169-253 | The answer and the final chat history are exactly those of the run specification |
| ReactAgent.ReActAgent.Reset | policy_enforcer/react_agent.py:345-348 | Clears the chat history |

## Left out

- **The reasoning model.** `ChatCompletionAgent.invoke` and its streaming are the oracle `Env.complete`. It receives the turn number and the chat history and returns the streamed message contents or an exception text. It is assumed not to change the history itself. The content of a message is taken to be a string already (`str(content)`).
- **The kernel.** Semantic Kernel's function table, `get_function`, `function.invoke` and the `TypeError` from `KernelArguments(**x)` on a non-mapping are oracles in `Kernel`. `invoke` is indexed by the number of actions already run. The effect of a tool on the world state is therefore not traced through the loop; the plugins are modelled on their own in `SkTools`. A falsy `FunctionResult` object is not modelled, and every result counts as present.
- **`json.loads`.** This is the oracle `Env.decode`. `None` stands for `JSONDecodeError`. Other exceptions from the decoder are not modelled.
- **`random.choice`.** The weather pick is a nondeterministic choice among sunny, raining and snowing.
- **Asynchrony.** `asyncio`, the synchronous `run` wrapper (react_agent.py:255-265) and verbose printing carry no logic the model needs.
- **Run bookkeeping and setup.** The `iterations` list in `run_async` is appended to but never read. The `ReActStep` enum is unused. The prompt builder, the execution settings and the agent set-up in the constructor are API glue.
- **Module-level singletons.** `get_state` and `get_rule_engine` are left out: the state and the engine are passed explicitly. `reset_state` returns a fresh object rather than rebinding a global.
- **`to_dict`.** It lists a set in Python's unspecified iteration order. `get_summary` has the same issue, so `GetSummary` takes that order as a parameter constrained to list the inventory once.
- **Metadata and registration.** The tools' descriptions and argument schemas, `get_sk_plugins`, `BusinessRule.__str__`, the rules' `name` fields and the `kernel_function` decorators are not modelled: nothing in the core reads them. Only the tool names, which the rules read, are kept.
- **Strings and oracle variables.** Python `str` is modelled as a sequence of code points. The `str.isspace` set is written out for the characters Python treats as whitespace. The plugins and tools receive their argument as one string.
- **Not part of this model.** The prompt text builders, the agent wrappers, the CLI, the demos, the experiment and plotting scripts, and functions some tests call that the sources do not define (for example `normalize_item_name`).
