/** The LangChain tools: every run consults the rules first and executes
    only when they allow. Unlike the plugin functions, the shopping tool
    does not validate its item and the activity tool validates the activity
    string only after the rules have run. */
module Tools {
  import opened Text
  import opened State
  import opened Rules
  import SkTools

  datatype Tool = CheckWeatherTool | ShoppingTool | ChooseActivityTool {
    /** The tool's `name` field, which is also what the tool rules see. */
    function Name(): string {
      match this
      case CheckWeatherTool => "check_weather"
      case ShoppingTool => "shopping"
      case ChooseActivityTool => "choose_activity"
    }
  }

  /** `get_tools`: one instance of each tool, weather first. */
  function GetTools(): (tools: seq<Tool>)
    ensures |tools| == 3
    ensures forall t: Tool :: t in tools
    ensures forall i, j :: 0 <= i < j < |tools| ==> tools[i].Name() != tools[j].Name()
    ensures tools[0].Name() == "check_weather"
  {
    var tools := [CheckWeatherTool, ShoppingTool, ChooseActivityTool];
    forall t: Tool ensures t in tools {
      if t.CheckWeatherTool? { assert tools[0] == t; }
      else if t.ShoppingTool? { assert tools[1] == t; }
      else { assert tools[2] == t; }
    }
    tools
  }

  /** The tool list's names, in order. */
  lemma ToolNames()
    ensures |GetTools()| == 3
    ensures GetTools()[0].Name() == "check_weather"
    ensures GetTools()[1].Name() == "shopping"
    ensures GetTools()[2].Name() == "choose_activity"
  {
  }

  /** Only the weather tool can be refused by the tool rules. */
  lemma OnlyWeatherToolIsRestricted(s: StateView, t: Tool)
    ensures !ToolVerdict(s, t.Name()).allowed <==>
      t == CheckWeatherTool && s.weatherChecked && s.weather != Unknown
  {
    ToolVerdictCases(s, t.Name());
  }

  const WeatherCompletePrefix := "\U{1F324}\U{FE0F} Weather check complete! Current weather: "

  function PurchasedMessage(item: string): string {
    "\U{1F6D2} Successfully purchased: " + item + ". Added to inventory!"
  }

  function ChosenMessage(activity: string): string {
    "\U{1F3AF} Activity chosen: " + activity + "! Have fun!"
  }

  /** `check_rules`: the tool rules for the tool's name and, for the activity
      tool only, then the activity rules for `arg`. */
  method CheckRules(tool: Tool, state: AgentState, engine: RuleEngine, arg: string)
    returns (violation: Option<string>)
    ensures tool != ChooseActivityTool ==>
      (violation.Some? <==> tool == CheckWeatherTool && state.weatherChecked && state.weather != Unknown)
    ensures tool != ChooseActivityTool && violation.Some? ==> violation.value == WeatherKnownReason
    ensures tool == ChooseActivityTool ==>
      (violation.None? <==> ActivityVerdict(state.View(), arg).allowed)
    ensures tool == ChooseActivityTool && violation.Some? ==>
      violation == ActivityVerdict(state.View(), arg).reason && violation.value != []
  {
    var result := engine.CheckToolRules(state, tool.Name());
    ToolVerdictCases(state.View(), tool.Name());
    if !result.allowed {
      return result.reason;
    }
    if tool == ChooseActivityTool {
      var activityResult := engine.CheckActivityRules(state, arg);
      if !activityResult.allowed {
        return activityResult.reason;
      }
    }
    return None;
  }

  /** `execute`: the weather tool draws sunny, raining or snowing; the
      shopping tool adds `arg` as given; the activity tool records `arg` if
      it names an activity and otherwise answers with the list of choices. */
  method Execute(tool: Tool, state: AgentState, arg: string) returns (msg: string)
    modifies state
    ensures tool == CheckWeatherTool ==>
      && state.weather in {Sunny, Raining, Snowing}
      && state.View() == old(state.View()).(weather := state.weather, weatherChecked := true)
      && msg == WeatherCompletePrefix + state.weather.Value()
    ensures tool == ShoppingTool ==>
      && state.View() == old(state.View()).(inventory := old(state.inventory) + {arg},
                                           shoppingHistory := old(state.shoppingHistory) + [arg])
      && msg == PurchasedMessage(arg)
    ensures tool == ChooseActivityTool && ActivityOf(arg).None? ==>
      msg == SkTools.InvalidActivityMessage && state.View() == old(state.View())
    ensures tool == ChooseActivityTool && ActivityOf(arg).Some? ==>
      state.View() == old(state.View()).(chosenActivity := ActivityOf(arg)) && msg == ChosenMessage(arg)
    ensures WeatherConsistent(old(state.View())) ==> WeatherConsistent(state.View())
  {
    match tool
    case CheckWeatherTool =>
      var w :| w in {Sunny, Raining, Snowing};
      state.SetWeather(w);
      msg := WeatherCompletePrefix + w.Value();
    case ShoppingTool =>
      state.AddToInventory(arg);
      msg := PurchasedMessage(arg);
    case ChooseActivityTool =>
      SkTools.ActivityValuesMembership(arg);
      if arg !in SkTools.ActivityValues {
        return SkTools.InvalidActivityMessage;
      }
      state.SetActivity(ActivityOf(arg).value);
      msg := ChosenMessage(arg);
  }

  /** `_run`: a rule violation is reported and nothing is executed;
      otherwise the tool executes. */
  method Run(tool: Tool, state: AgentState, engine: RuleEngine, arg: string) returns (msg: string)
    modifies state
    ensures tool == CheckWeatherTool && old(state.weatherChecked && state.weather != Unknown) ==>
      msg == SkTools.Violation(WeatherKnownReason) && state.View() == old(state.View())
    ensures tool == CheckWeatherTool && !old(state.weatherChecked && state.weather != Unknown) ==>
      && state.weather in {Sunny, Raining, Snowing}
      && state.View() == old(state.View()).(weather := state.weather, weatherChecked := true)
      && msg == WeatherCompletePrefix + state.weather.Value()
    ensures tool == ShoppingTool ==>
      && state.View() == old(state.View()).(inventory := old(state.inventory) + {arg},
                                           shoppingHistory := old(state.shoppingHistory) + [arg])
      && msg == PurchasedMessage(arg)
    ensures tool == ChooseActivityTool && !ActivityVerdict(old(state.View()), arg).allowed ==>
      && msg == SkTools.Violation(ActivityVerdict(old(state.View()), arg).reason.value)
      && state.View() == old(state.View())
    ensures tool == ChooseActivityTool && ActivityVerdict(old(state.View()), arg).allowed ==>
      && (ActivityOf(arg).None? ==> msg == SkTools.InvalidActivityMessage && state.View() == old(state.View()))
      && (ActivityOf(arg).Some? ==>
            state.View() == old(state.View()).(chosenActivity := ActivityOf(arg)) && msg == ChosenMessage(arg))
    ensures WeatherConsistent(old(state.View())) ==> WeatherConsistent(state.View())
  {
    var violation := CheckRules(tool, state, engine, arg);
    if SkTools.Truthy(violation) {
      match violation
      case Some(reason) => return SkTools.Violation(reason);
    }
    msg := Execute(tool, state, arg);
  }

  /** Checking the weather twice: the first run sets a known weather, and
      the second is refused and changes nothing. */
  method CheckWeatherTwice(state: AgentState, engine: RuleEngine) returns (first: string, second: string)
    modifies state
    requires state.View() == InitialView
    ensures StartsWith(first, WeatherCompletePrefix)
    ensures second == SkTools.Violation(WeatherKnownReason)
    ensures state.weather != Unknown && state.weatherChecked
  {
    first := Run(CheckWeatherTool, state, engine, "");
    assert first[..|WeatherCompletePrefix|] == WeatherCompletePrefix;
    ghost var afterFirst := state.View();
    second := Run(CheckWeatherTool, state, engine, "");
    assert state.View() == afterFirst;
  }

  /** With the weather still unknown, an activity string that names no
      activity meets the Unknown Weather rule in this tool, which checks rules
      first, and meets the validation message in the plugin, which validates
      first; neither records a choice. */
  method UnknownActivityUnderUnknownWeather(state: AgentState, engine: RuleEngine, activity: string)
    returns (viaTool: string, viaPlugin: string)
    modifies state
    requires state.weather == Unknown && activity != [] && ActivityOf(activity).None?
    ensures viaTool == SkTools.Violation(UnknownWeatherReason)
    ensures viaPlugin == SkTools.InvalidActivityMessage
    ensures state.View() == old(state.View())
  {
    UnrecognisedActivityVerdict(state.View(), activity);
    viaTool := Run(ChooseActivityTool, state, engine, activity);
    viaPlugin := SkTools.ChooseActivity(state, engine, activity);
  }
}
